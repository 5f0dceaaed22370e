/** The grass biosphere: its chunk-generation request event and its block
    table, stone from depth 5 down, dirt from depth 1, grass on the
    surface. */
module GrassBiosphere {
  import opened Wrappers
  import opened Chunks
  import opened Structures
  import opened BlockRangeTables

  /** Asks for chunk (x, y, z) of a structure to be generated as grass. */
  datatype GrassChunkNeedsGeneratedEvent = GrassChunkNeedsGeneratedEvent(x: nat, y: nat, z: nat, structureEntity: Entity)
  {
    function GetStructureEntity(): Entity
    {
      structureEntity
    }

    function GetChunkCoordinates(): (nat, nat, nat)
    {
      (x, y, z)
    }
  }

  /** The event's constructor: its getters give back what it was built
      from. */
  function NewEvent(x: nat, y: nat, z: nat, structureEntity: Entity): (ev: GrassChunkNeedsGeneratedEvent)
    ensures ev.GetChunkCoordinates() == (x, y, z)
    ensures ev.GetStructureEntity() == structureEntity
  {
    GrassChunkNeedsGeneratedEvent(x, y, z, structureEntity)
  }

  /** The biosphere's request for chunk (x, y, z) of a structure. */
  function GetGenerateChunkEvent(x: nat, y: nat, z: nat, structureEntity: Entity): (ev: GrassChunkNeedsGeneratedEvent)
    ensures ev.GetChunkCoordinates() == (x, y, z)
    ensures ev.GetStructureEntity() == structureEntity
  {
    NewEvent(x, y, z, structureEntity)
  }

  const STONE := "cosmos:stone"
  const DIRT := "cosmos:dirt"
  const GRASS := "cosmos:grass"

  /** The grass table built from the block registry, which maps block names
      to ids; a missing block is fatal (None). */
  function MakeBlockRanges(registry: map<string, BlockId>): (r: Option<BlockRanges>)
    ensures r.Some? <==> STONE in registry && DIRT in registry && GRASS in registry
    ensures r.Some? ==> r.value.Descending() && r.value.HasSurfaceEntry()
  {
    if STONE in registry && DIRT in registry && GRASS in registry then
      var t := BlockRanges([(registry[STONE], 5), (registry[DIRT], 1), (registry[GRASS], 0)]);
      assert t.ranges[2].1 == 0;
      Some(t)
    else None
  }

  /** On a grass planet the surface block is grass, the next four layers
      are dirt and everything deeper is stone. */
  lemma GrassLayers(registry: map<string, BlockId>, depth: nat)
    requires STONE in registry && DIRT in registry && GRASS in registry
    ensures MakeBlockRanges(registry).value.FaceBlock(depth)
            == Some(if depth == 0 then registry[GRASS] else if depth < 5 then registry[DIRT] else registry[STONE])
  {
    var t := MakeBlockRanges(registry).value;
    if depth == 0 {
      t.DescendingLookup(depth, 2);
    } else if depth < 5 {
      t.DescendingLookup(depth, 1);
    } else {
      t.DescendingLookup(depth, 0);
    }
  }
}
