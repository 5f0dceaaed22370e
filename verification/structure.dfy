/** The voxel store: a structure is a width x height x length grid of chunks,
    kept in one flat vector indexed by Flatten, and addressed either by chunk
    coordinates or by block coordinates (chunk coordinate * CHUNK_DIMENSIONS
    + offset inside the chunk). */
module Structures {
  import opened Wrappers
  import opened ArrayUtils
  import opened Chunks

  /** An engine entity id. */
  type Entity = nat

  /** Sent when a block of a structure changes. */
  datatype BlockChangedEvent = BlockChangedEvent(
    newBlock: BlockId, oldBlock: BlockId, structureEntity: Entity, block: (nat, nat, nat))

  /** The inclusive block-coordinate box a block iterator walks. */
  datatype BlockRange = BlockRange(start: (int, int, int), end: (int, int, int), includeAir: bool)

  function ChunkCoords(c: Chunk): (nat, nat, nat)
  {
    (c.structureX, c.structureY, c.structureZ)
  }

  /** Block coordinate -> (chunk coordinate, offset in that chunk). */
  function ChunkOf(v: nat): nat { v / CHUNK_DIMENSIONS }
  function OffsetIn(v: nat): nat { v % CHUNK_DIMENSIONS }

  /** A block coordinate is recovered from its chunk coordinate and offset,
      and lies below `count` chunks' worth of blocks exactly when its chunk
      coordinate lies below `count`. */
  lemma BlockCoordinateSplit(v: nat, count: nat)
    ensures OffsetIn(v) < CHUNK_DIMENSIONS
    ensures v == ChunkOf(v) * CHUNK_DIMENSIONS + OffsetIn(v)
    ensures v < count * CHUNK_DIMENSIONS <==> ChunkOf(v) < count
  {
  }

  /** Two different blocks of a structure never share both their chunk slot
      and their voxel inside the chunk, so writing one leaves the other be. */
  lemma {:induction false} BlockSlotsDistinct(x1: nat, y1: nat, z1: nat, x2: nat, y2: nat, z2: nat, width: nat, height: nat)
    requires x1 < width * CHUNK_DIMENSIONS && y1 < height * CHUNK_DIMENSIONS
    requires x2 < width * CHUNK_DIMENSIONS && y2 < height * CHUNK_DIMENSIONS
    requires (x1, y1, z1) != (x2, y2, z2)
    ensures Flatten(ChunkOf(x1), ChunkOf(y1), ChunkOf(z1), width, height) != Flatten(ChunkOf(x2), ChunkOf(y2), ChunkOf(z2), width, height)
         || (OffsetIn(x1), OffsetIn(y1), OffsetIn(z1)) != (OffsetIn(x2), OffsetIn(y2), OffsetIn(z2))
  {
    BlockCoordinateSplit(x1, width);
    BlockCoordinateSplit(y1, height);
    BlockCoordinateSplit(z1, 0);
    BlockCoordinateSplit(x2, width);
    BlockCoordinateSplit(y2, height);
    BlockCoordinateSplit(z2, 0);
    if Flatten(ChunkOf(x1), ChunkOf(y1), ChunkOf(z1), width, height) == Flatten(ChunkOf(x2), ChunkOf(y2), ChunkOf(z2), width, height) {
      FlattenInjective(ChunkOf(x1), ChunkOf(y1), ChunkOf(z1), ChunkOf(x2), ChunkOf(y2), ChunkOf(z2), width, height);
    }
  }

  /** The block box a chunk's block iterator walks covers exactly the blocks
      whose chunk coordinate is that chunk's. */
  function BlockIterForChunk(cx: nat, cy: nat, cz: nat, width: nat, height: nat, length: nat, includeAir: bool): (r: BlockRange)
    requires cx < width && cy < height && cz < length
    ensures forall x: nat :: r.start.0 <= x <= r.end.0 <==> ChunkOf(x) == cx
    ensures forall y: nat :: r.start.1 <= y <= r.end.1 <==> ChunkOf(y) == cy
    ensures forall z: nat :: r.start.2 <= z <= r.end.2 <==> ChunkOf(z) == cz
    ensures r.includeAir == includeAir
  {
    BlockRange(
      (cx * CHUNK_DIMENSIONS, cy * CHUNK_DIMENSIONS, cz * CHUNK_DIMENSIONS),
      ((cx + 1) * CHUNK_DIMENSIONS - 1, (cy + 1) * CHUNK_DIMENSIONS - 1, (cz + 1) * CHUNK_DIMENSIONS - 1),
      includeAir)
  }

  class Structure {
    /** Size of the chunk grid. */
    const width: nat
    const height: nat
    const length: nat

    var chunks: seq<Chunk>
    /** Either empty (a structure read back from disk) or one slot per chunk. */
    var chunkEntities: seq<Option<Entity>>
    var selfEntity: Option<Entity>

    ghost predicate Valid()
      reads this
    {
      && |chunks| == width * height * length
      && (forall i | 0 <= i < |chunks| :: chunks[i].Valid())
      && (|chunkEntities| == 0 || |chunkEntities| == width * height * length)
    }

    /** Every chunk sits in the slot its own coordinates flatten to. */
    ghost predicate ChunksInPlace()
      reads this
    {
      forall i | 0 <= i < |chunks| :: width > 0 && height > 0 && ChunkCoords(chunks[i]) == Expand(i, width, height)
    }

    predicate InChunkBounds(cx: nat, cy: nat, cz: nat)
    {
      cx < width && cy < height && cz < length
    }

    function ChunkIndex(cx: nat, cy: nat, cz: nat): nat
    {
      Flatten(cx, cy, cz, width, height)
    }

    lemma ChunkIndexInRange(cx: nat, cy: nat, cz: nat)
      requires InChunkBounds(cx, cy, cz)
      ensures ChunkIndex(cx, cy, cz) < width * height * length
    {
      FlattenBound(cx, cy, cz, width, height, length);
    }

    constructor (width: nat, height: nat, length: nat, selfEntity: Entity)
      ensures this.width == width && this.height == height && this.length == length
      ensures Valid() && ChunksInPlace()
      ensures forall cx: nat, cy: nat, cz: nat | InChunkBounds(cx, cy, cz) ::
                ChunkIndex(cx, cy, cz) < |chunks| && chunks[ChunkIndex(cx, cy, cz)] == NewChunk(cx, cy, cz)
      ensures chunkEntities == seq(width * height * length, _ => None)
      ensures this.selfEntity == Some(selfEntity)
    {
      var cs: seq<Chunk> := [];
      for z := 0 to length
        invariant |cs| == Flatten(0, 0, z, width, height)
        invariant |cs| > 0 ==> width > 0 && height > 0
        invariant forall i | 0 <= i < |cs| :: width > 0 && height > 0 &&
                    var e := Expand(i, width, height); cs[i] == NewChunk(e.0, e.1, e.2)
      {
        for y := 0 to height
          invariant |cs| == Flatten(0, y, z, width, height)
          invariant |cs| > 0 ==> width > 0 && height > 0
          invariant forall i | 0 <= i < |cs| :: width > 0 && height > 0 &&
                      var e := Expand(i, width, height); cs[i] == NewChunk(e.0, e.1, e.2)
        {
          for x := 0 to width
            invariant |cs| == Flatten(x, y, z, width, height)
            invariant |cs| > 0 ==> width > 0 && height > 0
            invariant forall i | 0 <= i < |cs| :: width > 0 && height > 0 &&
                        var e := Expand(i, width, height); cs[i] == NewChunk(e.0, e.1, e.2)
          {
            ExpandFlatten(x, y, z, width, height);
            cs := cs + [NewChunk(x, y, z)];
          }
          assert Flatten(width, y, z, width, height) == Flatten(0, y + 1, z, width, height);
        }
        assert Flatten(0, height, z, width, height) == Flatten(0, 0, z + 1, width, height);
      }
      assert |cs| == width * height * length by { MulAssoc(length, width, height); }

      var ents: seq<Option<Entity>> := [];
      for i := 0 to length * width * height
        invariant ents == seq(i, _ => None)
      {
        ents := ents + [None];
      }

      this.width, this.height, this.length := width, height, length;
      chunks := cs;
      chunkEntities := ents;
      this.selfEntity := Some(selfEntity);
      new;
      forall cx: nat, cy: nat, cz: nat | InChunkBounds(cx, cy, cz)
        ensures ChunkIndex(cx, cy, cz) < |chunks| && chunks[ChunkIndex(cx, cy, cz)] == NewChunk(cx, cy, cz)
      {
        ChunkIndexInRange(cx, cy, cz);
        ExpandFlatten(cx, cy, cz, width, height);
      }
    }

    function BlocksWidth(): nat { width * CHUNK_DIMENSIONS }
    function BlocksHeight(): nat { height * CHUNK_DIMENSIONS }
    function BlocksLength(): nat { length * CHUNK_DIMENSIONS }

    predicate IsWithinBlocks(x: nat, y: nat, z: nat)
    {
      x < BlocksWidth() && y < BlocksHeight() && z < BlocksLength()
    }

    /** A block is inside the structure exactly when its chunk is. */
    lemma IsWithinBlocksIff(x: nat, y: nat, z: nat)
      ensures IsWithinBlocks(x, y, z) <==> InChunkBounds(ChunkOf(x), ChunkOf(y), ChunkOf(z))
    {
      BlockCoordinateSplit(x, width);
      BlockCoordinateSplit(y, height);
      BlockCoordinateSplit(z, length);
    }

    /** The chunk stored for chunk coordinates (cx, cy, cz); the source's
        vector index panics past the end of the vector. */
    function ChunkFromChunkCoordinates(cx: nat, cy: nat, cz: nat): (c: Chunk)
      reads this
      requires ChunkIndex(cx, cy, cz) < |chunks|
      ensures ChunksInPlace() && InChunkBounds(cx, cy, cz) ==> ChunkCoords(c) == (cx, cy, cz)
    {
      InPlaceCoords(cx, cy, cz);
      chunks[ChunkIndex(cx, cy, cz)]
    }

    lemma InPlaceCoords(cx: nat, cy: nat, cz: nat)
      ensures ChunksInPlace() && InChunkBounds(cx, cy, cz) && ChunkIndex(cx, cy, cz) < |chunks| ==>
                ChunkCoords(chunks[ChunkIndex(cx, cy, cz)]) == (cx, cy, cz)
    {
      if InChunkBounds(cx, cy, cz) {
        ExpandFlatten(cx, cy, cz, width, height);
      }
    }

    function BlockSlot(x: nat, y: nat, z: nat): nat
    {
      ChunkIndex(ChunkOf(x), ChunkOf(y), ChunkOf(z))
    }

    /** The chunk holding block (x, y, z). */
    function ChunkAtBlockCoordinates(x: nat, y: nat, z: nat): (c: Chunk)
      reads this
      requires BlockSlot(x, y, z) < |chunks|
      ensures ChunksInPlace() && IsWithinBlocks(x, y, z) ==> ChunkCoords(c) == (ChunkOf(x), ChunkOf(y), ChunkOf(z))
    {
      IsWithinBlocksIff(x, y, z);
      ChunkFromChunkCoordinates(ChunkOf(x), ChunkOf(y), ChunkOf(z))
    }

    function BlockIdAt(x: nat, y: nat, z: nat): BlockId
      reads this
      requires Valid() && BlockSlot(x, y, z) < |chunks|
    {
      ChunkAtBlockCoordinates(x, y, z).BlockAt(OffsetIn(x), OffsetIn(y), OffsetIn(z))
    }

    predicate HasBlockAt(x: nat, y: nat, z: nat)
      reads this
      requires Valid() && BlockSlot(x, y, z) < |chunks|
    {
      BlockIdAt(x, y, z) != AIR_BLOCK_ID
    }

    /** Places `block` at (x, y, z). When the block is already there nothing
        is written and nothing is sent; otherwise exactly that voxel changes
        and, if the structure knows its entity and a writer is given, a
        BlockChangedEvent with the old and new ids is returned as sent. */
    method SetBlockAt(x: nat, y: nat, z: nat, block: BlockId, hasWriter: bool) returns (sent: Option<BlockChangedEvent>)
      requires Valid() && BlockSlot(x, y, z) < |chunks|
      modifies this`chunks
      ensures Valid()
      ensures BlockIdAt(x, y, z) == block
      ensures old(BlockIdAt(x, y, z)) == block ==> chunks == old(chunks) && sent == None
      ensures old(BlockIdAt(x, y, z)) != block ==>
                chunks == old(chunks)[BlockSlot(x, y, z) := old(chunks)[BlockSlot(x, y, z)].SetBlockAt(
                  OffsetIn(x), OffsetIn(y), OffsetIn(z), block, old(chunks)[BlockSlot(x, y, z)].RotationAt(OffsetIn(x), OffsetIn(y), OffsetIn(z)))]
      ensures sent == if old(BlockIdAt(x, y, z)) != block && selfEntity.Some? && hasWriter
                      then Some(BlockChangedEvent(block, old(BlockIdAt(x, y, z)), selfEntity.value, (x, y, z)))
                      else None
      ensures IsWithinBlocks(x, y, z) ==>
                forall x': nat, y': nat, z': nat | IsWithinBlocks(x', y', z') && (x', y', z') != (x, y, z) ::
                  BlockSlot(x', y', z') < |chunks| && BlockIdAt(x', y', z') == old(BlockIdAt(x', y', z'))
    {
      var oldBlock := BlockIdAt(x, y, z);
      sent := None;
      if oldBlock != block {
        if selfEntity.Some? && hasWriter {
          sent := Some(BlockChangedEvent(block, oldBlock, selfEntity.value, (x, y, z)));
        }
        var i := BlockSlot(x, y, z);
        var c := chunks[i];
        var lx, ly, lz := OffsetIn(x), OffsetIn(y), OffsetIn(z);
        chunks := chunks[i := c.SetBlockAt(lx, ly, lz, block, c.RotationAt(lx, ly, lz))];
      }
      if IsWithinBlocks(x, y, z) {
        forall x': nat, y': nat, z': nat | IsWithinBlocks(x', y', z') && (x', y', z') != (x, y, z)
          ensures BlockSlot(x', y', z') < |chunks| && BlockIdAt(x', y', z') == old(BlockIdAt(x', y', z'))
        {
          IsWithinBlocksIff(x', y', z');
          ChunkIndexInRange(ChunkOf(x'), ChunkOf(y'), ChunkOf(z'));
          BlockSlotsDistinct(x, y, z, x', y', z', width, height);
          if oldBlock != block && BlockSlot(x', y', z') == BlockSlot(x, y, z) {
            var c := old(chunks)[BlockSlot(x, y, z)];
            c.SetBlockAtLeavesOthers(OffsetIn(x), OffsetIn(y), OffsetIn(z), block, c.RotationAt(OffsetIn(x), OffsetIn(y), OffsetIn(z)),
                                     OffsetIn(x'), OffsetIn(y'), OffsetIn(z'));
          }
        }
      }
    }

    /** Removing a block is placing air. */
    method RemoveBlockAt(x: nat, y: nat, z: nat, hasWriter: bool) returns (sent: Option<BlockChangedEvent>)
      requires Valid() && BlockSlot(x, y, z) < |chunks|
      modifies this`chunks
      ensures Valid() && !HasBlockAt(x, y, z)
      ensures old(BlockIdAt(x, y, z)) == AIR_BLOCK_ID ==> chunks == old(chunks) && sent == None
      ensures sent == if old(BlockIdAt(x, y, z)) != AIR_BLOCK_ID && selfEntity.Some? && hasWriter
                      then Some(BlockChangedEvent(AIR_BLOCK_ID, old(BlockIdAt(x, y, z)), selfEntity.value, (x, y, z)))
                      else None
      ensures IsWithinBlocks(x, y, z) ==>
                forall x': nat, y': nat, z': nat | IsWithinBlocks(x', y', z') && (x', y', z') != (x, y, z) ::
                  BlockSlot(x', y', z') < |chunks| && BlockIdAt(x', y', z') == old(BlockIdAt(x', y', z'))
    {
      sent := SetBlockAt(x, y, z, AIR_BLOCK_ID, hasWriter);
    }

    /** Stores `chunk` in the slot its own coordinates flatten to; every other
        slot keeps its chunk. */
    method SetChunk(chunk: Chunk)
      requires Valid() && chunk.Valid()
      requires ChunkIndex(chunk.structureX, chunk.structureY, chunk.structureZ) < |chunks|
      modifies this`chunks
      ensures Valid()
      ensures chunks == old(chunks)[ChunkIndex(chunk.structureX, chunk.structureY, chunk.structureZ) := chunk]
      ensures old(ChunksInPlace()) && InChunkBounds(chunk.structureX, chunk.structureY, chunk.structureZ) ==> ChunksInPlace()
    {
      var i := ChunkIndex(chunk.structureX, chunk.structureY, chunk.structureZ);
      if ChunksInPlace() && InChunkBounds(chunk.structureX, chunk.structureY, chunk.structureZ) {
        ExpandFlatten(chunk.structureX, chunk.structureY, chunk.structureZ, width, height);
      }
      chunks := chunks[i := chunk];
    }

    /** Records the entity of one chunk, first giving a structure read back
        without entity slots one empty slot per chunk. */
    method SetChunkEntity(cx: nat, cy: nat, cz: nat, entity: Entity)
      requires Valid() && ChunkIndex(cx, cy, cz) < width * height * length
      modifies this`chunkEntities
      ensures Valid()
      ensures |chunkEntities| == width * height * length
      ensures chunkEntities == (if old(|chunkEntities|) == 0 then seq(width * height * length, _ => None)
                                else old(chunkEntities))[ChunkIndex(cx, cy, cz) := Some(entity)]
      ensures ChunkEntity(cx, cy, cz) == Some(entity)
    {
      if |chunkEntities| == 0 {
        var n := width * height * length;
        for i := 0 to n
          invariant chunkEntities == seq(i, _ => None)
        {
          chunkEntities := chunkEntities + [None];
        }
      }
      chunkEntities := chunkEntities[ChunkIndex(cx, cy, cz) := Some(entity)];
    }

    /** The entity recorded for chunk (cx, cy, cz); None where the source's
        unwrap panics because none was recorded. */
    function ChunkEntity(cx: nat, cy: nat, cz: nat): Option<Entity>
      reads this
      requires ChunkIndex(cx, cy, cz) < |chunkEntities|
    {
      chunkEntities[ChunkIndex(cx, cy, cz)]
    }

    /** Records the structure's own entity. */
    method SetEntity(entity: Entity)
      modifies this`selfEntity
      ensures selfEntity == Some(entity)
    {
      selfEntity := Some(entity);
    }
  }
}
