/** The three terrain fills as the generator runs them: nested loops over the
    chunk, height caches in fixed-size 2-D arrays, the one-shot 45-degree cap
    kept in a local variable, and the chunk written voxel by voxel. A block
    lookup that finds no entry panics; here the fill then returns None. Each
    fill is proved to produce the chunk `Filled` describes. */
module TerrainFill {
  import opened Wrappers
  import opened Chunks
  import opened BlockRangeTables
  import opened Terrain
  import opened TerrainFace
  import opened TerrainEdge
  import opened TerrainCorner
  import opened FillSpec

  /** Fills a chunk lying on a single face: one terrain height per column,
      every voxel of the column at or below it made solid. */
  method DoFace(t: Terrain, up: BlockFace, chunk: Chunk) returns (r: Option<Chunk>)
    requires t.Valid() && chunk.Valid()
    ensures r == Filled(t, FaceFill(up), chunk)
  {
    var c := chunk;
    for i := 0 to CHUNK_DIMENSIONS
      invariant FilledUpTo(t, FaceFill(up), chunk, i, 0, 0) == Some(c)
    {
      for j := 0 to CHUNK_DIMENSIONS
        invariant FilledUpTo(t, FaceFill(up), chunk, i, j, 0) == Some(c)
      {
        var column := FaceColumn(t, up, chunk, i, j, c);
        if column.None? {
          return None;
        }
        c := column.value;
      }
    }
    r := Some(c);
  }

  /** The innermost loop of the face fill: column (i, j), bottom to top of
      the chunk along the face's axis. */
  method FaceColumn(t: Terrain, up: BlockFace, ghost chunk: Chunk, i: nat, j: nat, c0: Chunk) returns (r: Option<Chunk>)
    requires t.Valid() && chunk.Valid() && i < CHUNK_DIMENSIONS && j < CHUNK_DIMENSIONS
    requires FilledUpTo(t, FaceFill(up), chunk, i, j, 0) == Some(c0)
    ensures r.Some? ==> FilledUpTo(t, FaceFill(up), chunk, i, j, CHUNK_DIMENSIONS) == r
    ensures r.None? ==> Filled(t, FaceFill(up), chunk).None?
  {
    var c := c0;
    var top := t.topHeight(FaceSeed(t, up, i, j));
    for height := 0 to CHUNK_DIMENSIONS
      invariant FilledUpTo(t, FaceFill(up), chunk, i, j, height) == Some(c)
    {
      var next := FaceVoxelStep(t, up, i, j, height, top, c);
      FilledAdvance(t, FaceFill(up), chunk, i, j, height, c, next);
      if next.None? {
        return None;
      }
      c := next.value;
    }
    r := Some(c);
  }

  /** The body of the face fill's innermost loop: the voxel at `height` of
      column (i, j), whose terrain height is `top`. */
  method FaceVoxelStep(t: Terrain, up: BlockFace, i: nat, j: nat, height: nat, top: nat, c: Chunk) returns (r: Option<Chunk>)
    requires t.Valid() && InChunk(i, j, height) && c.Valid()
    requires top == t.topHeight(FaceSeed(t, up, i, j))
    ensures r == CellStep(c, FaceVoxel(up, i, j, height), FaceCell(t, up, i, j, height))
  {
    var v := FaceVoxel(up, i, j, height);
    var actual := FaceActualHeight(t, up, height);
    r := Some(c);
    if actual <= top {
      var block := t.ranges.FaceBlock(top - actual);
      if block.None? {
        return None;
      }
      r := Some(c.SetBlockAt(v.0, v.1, v.2, block.value, up));
    }
  }

  /** The j face's height cache of the edge fill, entry [i, k]. */
  method EdgeHeightCache(t: Terrain, jUp: BlockFace, kUp: BlockFace) returns (jTop: array2<nat>)
    requires t.Valid() && EdgeFaces(jUp, kUp)
    ensures fresh(jTop) && jTop.Length0 == CHUNK_DIMENSIONS && jTop.Length1 == CHUNK_DIMENSIONS
    ensures forall i: nat, k: nat {:trigger jTop[i, k]} :: i < CHUNK_DIMENSIONS && k < CHUNK_DIMENSIONS ==> jTop[i, k] == JTop(t, jUp, kUp, i, k)
  {
    jTop := new nat[CHUNK_DIMENSIONS, CHUNK_DIMENSIONS];
    for i := 0 to CHUNK_DIMENSIONS
      invariant forall i': nat, k: nat :: i' < i && k < CHUNK_DIMENSIONS ==> jTop[i', k] == JTop(t, jUp, kUp, i', k)
    {
      for k := 0 to CHUNK_DIMENSIONS
        invariant forall i': nat, k': nat :: i' < i && k' < CHUNK_DIMENSIONS ==> jTop[i', k'] == JTop(t, jUp, kUp, i', k')
        invariant forall k': nat :: k' < k ==> jTop[i, k'] == JTop(t, jUp, kUp, i, k')
      {
        var height := t.topHeight(JCacheSeed(t, jUp, kUp, i, k));
        var dim45 := LayerHeight(t, kUp, k);
        jTop[i, k] := Max(height, dim45);
      }
    }
  }

  /** Fills a chunk lying on the edge between the j face and the k face. */
  method DoEdge(t: Terrain, jUp: BlockFace, kUp: BlockFace, chunk: Chunk) returns (r: Option<Chunk>)
    requires t.Valid() && EdgeFaces(jUp, kUp) && chunk.Valid()
    ensures r == Filled(t, EdgeFill(jUp, kUp), chunk)
  {
    var jTop := EdgeHeightCache(t, jUp, kUp);
    r := EdgeSlices(t, jUp, kUp, jTop, chunk);
  }

  /** The outer loop of the edge fill, given its height cache. */
  method EdgeSlices(t: Terrain, jUp: BlockFace, kUp: BlockFace, jTop: array2<nat>, chunk: Chunk) returns (r: Option<Chunk>)
    requires t.Valid() && EdgeFaces(jUp, kUp) && chunk.Valid()
    requires jTop.Length0 == CHUNK_DIMENSIONS && jTop.Length1 == CHUNK_DIMENSIONS
    requires forall i: nat, k: nat {:trigger jTop[i, k]} :: i < CHUNK_DIMENSIONS && k < CHUNK_DIMENSIONS ==> jTop[i, k] == JTop(t, jUp, kUp, i, k)
    ensures r == Filled(t, EdgeFill(jUp, kUp), chunk)
  {
    var c := chunk;
    for i := 0 to CHUNK_DIMENSIONS
      invariant FilledUpTo(t, EdgeFill(jUp, kUp), chunk, i, 0, 0) == Some(c)
    {
      var slice := EdgeSlice(t, jUp, kUp, jTop, chunk, i, c);
      if slice.None? {
        return None;
      }
      c := slice.value;
    }
    r := Some(c);
  }

  /** Slice i of the edge fill: first_both_45 starts at the planet size and
      is updated row by row. */
  method EdgeSlice(t: Terrain, jUp: BlockFace, kUp: BlockFace, jTop: array2<nat>, ghost chunk: Chunk,
                   i: nat, c0: Chunk) returns (r: Option<Chunk>)
    requires t.Valid() && EdgeFaces(jUp, kUp) && chunk.Valid() && i < CHUNK_DIMENSIONS
    requires jTop.Length0 == CHUNK_DIMENSIONS && jTop.Length1 == CHUNK_DIMENSIONS
    requires forall i: nat, k: nat {:trigger jTop[i, k]} :: i < CHUNK_DIMENSIONS && k < CHUNK_DIMENSIONS ==> jTop[i, k] == JTop(t, jUp, kUp, i, k)
    requires FilledUpTo(t, EdgeFill(jUp, kUp), chunk, i, 0, 0) == Some(c0)
    ensures r.Some? ==> FilledUpTo(t, EdgeFill(jUp, kUp), chunk, i + 1, 0, 0) == r
    ensures r.None? ==> Filled(t, EdgeFill(jUp, kUp), chunk).None?
  {
    var c := c0;
    var firstBoth45 := t.sDim;
    for j := 0 to CHUNK_DIMENSIONS
      invariant FilledUpTo(t, EdgeFill(jUp, kUp), chunk, i, j, 0) == Some(c)
      invariant firstBoth45 == FirstBoth45(t, jUp, kUp, i, j)
    {
      var jHeight := LayerHeight(t, jUp, j);
      if jHeight > firstBoth45 {
        ClampPanicAborts(t, jUp, kUp, chunk, i, j);
        return None;
      }
      var kTop;
      kTop, firstBoth45 := EdgeRowTops(t, jUp, kUp, jTop, i, j, jHeight, firstBoth45);
      var row := EdgeRow(t, jUp, kUp, jTop, chunk, i, j, jHeight, kTop, firstBoth45, c);
      if row.None? {
        return None;
      }
      c := row.value;
    }
    r := Some(c);
  }

  /** A row whose j height exceeds first_both_45 panics in `clamp`, which
      aborts the whole edge fill. */
  lemma ClampPanicAborts(t: Terrain, jUp: BlockFace, kUp: BlockFace, chunk: Chunk, i: nat, j: nat)
    requires t.Valid() && EdgeFaces(jUp, kUp) && chunk.Valid() && i < CHUNK_DIMENSIONS && j < CHUNK_DIMENSIONS
    requires ClampPanics(t, jUp, kUp, i, j)
    ensures Filled(t, EdgeFill(jUp, kUp), chunk).None?
  {
    assert EdgeCell(t, jUp, kUp, i, j, 0) == Panic;
    FilledStaysNone(t, EdgeFill(jUp, kUp), chunk, i, j, 0);
  }

  /** The k height of row (i, j), clamped between the j height and
      first_both_45, and first_both_45 as the row updates it. */
  method EdgeRowTops(t: Terrain, jUp: BlockFace, kUp: BlockFace, jTop: array2<nat>, i: nat, j: nat,
                     jHeight: nat, firstBoth45: nat) returns (kTop: nat, next: nat)
    requires t.Valid() && EdgeFaces(jUp, kUp) && i < CHUNK_DIMENSIONS && j < CHUNK_DIMENSIONS
    requires jTop.Length0 == CHUNK_DIMENSIONS && jTop.Length1 == CHUNK_DIMENSIONS
    requires forall i: nat, k: nat {:trigger jTop[i, k]} :: i < CHUNK_DIMENSIONS && k < CHUNK_DIMENSIONS ==> jTop[i, k] == JTop(t, jUp, kUp, i, k)
    requires jHeight == LayerHeight(t, jUp, j) && firstBoth45 == FirstBoth45(t, jUp, kUp, i, j)
    ensures kTop == KTop(t, jUp, kUp, i, j) && next == FirstBoth45(t, jUp, kUp, i, j + 1)
  {
    FirstBoth45Next(t, jUp, kUp, i, j);
    kTop := Clamp(t.topHeight(KSeed(t, jUp, kUp, i, j)), jHeight, firstBoth45);
    next := firstBoth45;
    if jTop[i, j] == j && kTop == j && firstBoth45 == t.sDim {
      next := kTop;
    }
  }

  /** The innermost loop of the edge fill: row (i, j), once its k height
      and the updated first_both_45 are known. */
  method EdgeRow(t: Terrain, jUp: BlockFace, kUp: BlockFace, jTop: array2<nat>, ghost chunk: Chunk,
                 i: nat, j: nat, jHeight: nat, kTop: nat, firstBoth45: nat, c0: Chunk) returns (r: Option<Chunk>)
    requires t.Valid() && EdgeFaces(jUp, kUp) && chunk.Valid() && i < CHUNK_DIMENSIONS && j < CHUNK_DIMENSIONS
    requires jTop.Length0 == CHUNK_DIMENSIONS && jTop.Length1 == CHUNK_DIMENSIONS
    requires forall i: nat, k: nat {:trigger jTop[i, k]} :: i < CHUNK_DIMENSIONS && k < CHUNK_DIMENSIONS ==> jTop[i, k] == JTop(t, jUp, kUp, i, k)
    requires !ClampPanics(t, jUp, kUp, i, j) && jHeight == LayerHeight(t, jUp, j) && kTop == KTop(t, jUp, kUp, i, j)
    requires firstBoth45 == FirstBoth45(t, jUp, kUp, i, j + 1)
    requires FilledUpTo(t, EdgeFill(jUp, kUp), chunk, i, j, 0) == Some(c0)
    ensures r.Some? ==> FilledUpTo(t, EdgeFill(jUp, kUp), chunk, i, j, CHUNK_DIMENSIONS) == r
    ensures r.None? ==> Filled(t, EdgeFill(jUp, kUp), chunk).None?
  {
    var c := c0;
    for k := 0 to CHUNK_DIMENSIONS
      invariant FilledUpTo(t, EdgeFill(jUp, kUp), chunk, i, j, k) == Some(c)
    {
      var jt := Min(jTop[i, k], firstBoth45);
      var next := EdgeVoxelStep(t, jUp, kUp, j, k, EdgeVoxel(jUp, kUp, i, j, k), jHeight, jt, kTop, c);
      EdgeCellIs(t, jUp, kUp, i, j, k, jt, kTop);
      FilledAdvance(t, EdgeFill(jUp, kUp), chunk, i, j, k, c, next);
      if next.None? {
        return None;
      }
      c := next.value;
    }
    r := Some(c);
  }

  /** The body of the edge fill's innermost loop: voxel v, written in row j
      and layer k, given the j height and the two capped tops. */
  method EdgeVoxelStep(t: Terrain, jUp: BlockFace, kUp: BlockFace, j: nat, k: nat, v: (nat, nat, nat),
                       jHeight: nat, jt: nat, kTop: nat, c: Chunk) returns (r: Option<Chunk>)
    requires t.Valid() && j < CHUNK_DIMENSIONS && k < CHUNK_DIMENSIONS && InChunk(v.0, v.1, v.2) && c.Valid()
    requires jHeight == LayerHeight(t, jUp, j)
    ensures r == CellStep(c, v, EdgeRule(t, jUp, kUp, j, k, v, jt, kTop))
  {
    var kHeight := LayerHeight(t, kUp, k);
    var numTop := OnTop(jHeight, jt) + OnTop(kHeight, kTop);
    r := Some(c);
    if jHeight <= jt && kHeight <= kTop && numTop <= 1 {
      var up := t.planetFace(t.sx + v.0, t.sy + v.1, t.sz + v.2, t.sDim, t.sDim, t.sDim);
      if jHeight == jt {
        up := jUp;
      }
      if kHeight == kTop {
        up := kUp;
      }
      var block := t.ranges.EdgeBlock(jt - jHeight, kTop - kHeight);
      if block.None? {
        return None;
      }
      r := Some(c.SetBlockAt(v.0, v.1, v.2, block.value, up));
    }
  }

  /** The x face's height cache of the corner fill, entry [j, k]. */
  method CornerXCache(t: Terrain, xUp: BlockFace, yUp: BlockFace, zUp: BlockFace) returns (xTop: array2<nat>)
    requires t.Valid()
    ensures fresh(xTop) && xTop.Length0 == CHUNK_DIMENSIONS && xTop.Length1 == CHUNK_DIMENSIONS
    ensures forall j: nat, k: nat {:trigger xTop[j, k]} :: j < CHUNK_DIMENSIONS && k < CHUNK_DIMENSIONS ==> xTop[j, k] == XTop(t, xUp, yUp, zUp, j, k)
  {
    xTop := new nat[CHUNK_DIMENSIONS, CHUNK_DIMENSIONS];
    for j := 0 to CHUNK_DIMENSIONS
      invariant forall j': nat, k: nat :: j' < j && k < CHUNK_DIMENSIONS ==> xTop[j', k] == XTop(t, xUp, yUp, zUp, j', k)
    {
      for k := 0 to CHUNK_DIMENSIONS
        invariant forall j': nat, k': nat :: j' < j && k' < CHUNK_DIMENSIONS ==> xTop[j', k'] == XTop(t, xUp, yUp, zUp, j', k')
        invariant forall k': nat :: k' < k ==> xTop[j, k'] == XTop(t, xUp, yUp, zUp, j, k')
      {
        var height := t.topHeight((SeedLevel(xUp, t.middle, t.sDim), t.sy + j, t.sz + k));
        var y45 := CornerHeight(t, yUp, t.sy + j);
        var z45 := CornerHeight(t, zUp, t.sz + k);
        xTop[j, k] := Max(Max(height, y45), z45);
      }
    }
  }

  /** The y face's height cache of the corner fill, entry [i, k]. */
  method CornerYCache(t: Terrain, xUp: BlockFace, yUp: BlockFace, zUp: BlockFace) returns (yTop: array2<nat>)
    requires t.Valid()
    ensures fresh(yTop) && yTop.Length0 == CHUNK_DIMENSIONS && yTop.Length1 == CHUNK_DIMENSIONS
    ensures forall i: nat, k: nat {:trigger yTop[i, k]} :: i < CHUNK_DIMENSIONS && k < CHUNK_DIMENSIONS ==> yTop[i, k] == YTop(t, xUp, yUp, zUp, i, k)
  {
    yTop := new nat[CHUNK_DIMENSIONS, CHUNK_DIMENSIONS];
    for i := 0 to CHUNK_DIMENSIONS
      invariant forall i': nat, k: nat :: i' < i && k < CHUNK_DIMENSIONS ==> yTop[i', k] == YTop(t, xUp, yUp, zUp, i', k)
    {
      for k := 0 to CHUNK_DIMENSIONS
        invariant forall i': nat, k': nat :: i' < i && k' < CHUNK_DIMENSIONS ==> yTop[i', k'] == YTop(t, xUp, yUp, zUp, i', k')
        invariant forall k': nat :: k' < k ==> yTop[i, k'] == YTop(t, xUp, yUp, zUp, i, k')
      {
        var height := t.topHeight((t.sx + i, SeedLevel(yUp, t.middle, t.sDim), t.sz + k));
        var x45 := CornerHeight(t, xUp, t.sx + i);
        var z45 := CornerHeight(t, zUp, t.sz + k);
        yTop[i, k] := Max(Max(height, x45), z45);
      }
    }
  }

  /** Fills a chunk lying on a corner, where an x, a y and a z face meet. */
  method DoCorner(t: Terrain, xUp: BlockFace, yUp: BlockFace, zUp: BlockFace, chunk: Chunk) returns (r: Option<Chunk>)
    requires t.Valid() && CornerFaces(xUp, yUp, zUp) && chunk.Valid()
    ensures r == Filled(t, CornerFill(xUp, yUp, zUp), chunk)
  {
    var xTop := CornerXCache(t, xUp, yUp, zUp);
    var yTop := CornerYCache(t, xUp, yUp, zUp);
    r := CornerSlices(t, xUp, yUp, zUp, xTop, yTop, chunk);
  }

  /** The outer loop of the corner fill, given its two height caches. */
  method CornerSlices(t: Terrain, xUp: BlockFace, yUp: BlockFace, zUp: BlockFace, xTop: array2<nat>, yTop: array2<nat>,
                      chunk: Chunk) returns (r: Option<Chunk>)
    requires t.Valid() && CornerFaces(xUp, yUp, zUp) && chunk.Valid()
    requires xTop.Length0 == CHUNK_DIMENSIONS && xTop.Length1 == CHUNK_DIMENSIONS
    requires yTop.Length0 == CHUNK_DIMENSIONS && yTop.Length1 == CHUNK_DIMENSIONS
    requires forall j: nat, k: nat {:trigger xTop[j, k]} :: j < CHUNK_DIMENSIONS && k < CHUNK_DIMENSIONS ==> xTop[j, k] == XTop(t, xUp, yUp, zUp, j, k)
    requires forall i: nat, k: nat {:trigger yTop[i, k]} :: i < CHUNK_DIMENSIONS && k < CHUNK_DIMENSIONS ==> yTop[i, k] == YTop(t, xUp, yUp, zUp, i, k)
    ensures r == Filled(t, CornerFill(xUp, yUp, zUp), chunk)
  {
    var c := chunk;
    for i := 0 to CHUNK_DIMENSIONS
      invariant FilledUpTo(t, CornerFill(xUp, yUp, zUp), chunk, i, 0, 0) == Some(c)
    {
      var slice := CornerSlice(t, xUp, yUp, zUp, xTop, yTop, chunk, i, c);
      if slice.None? {
        return None;
      }
      c := slice.value;
    }
    r := Some(c);
  }

  /** Slice i of the corner fill: first_all_45 starts at the planet size
      and is updated row by row. */
  method CornerSlice(t: Terrain, xUp: BlockFace, yUp: BlockFace, zUp: BlockFace, xTop: array2<nat>, yTop: array2<nat>,
                     ghost chunk: Chunk, i: nat, c0: Chunk) returns (r: Option<Chunk>)
    requires t.Valid() && CornerFaces(xUp, yUp, zUp) && chunk.Valid() && i < CHUNK_DIMENSIONS
    requires xTop.Length0 == CHUNK_DIMENSIONS && xTop.Length1 == CHUNK_DIMENSIONS
    requires yTop.Length0 == CHUNK_DIMENSIONS && yTop.Length1 == CHUNK_DIMENSIONS
    requires forall j: nat, k: nat {:trigger xTop[j, k]} :: j < CHUNK_DIMENSIONS && k < CHUNK_DIMENSIONS ==> xTop[j, k] == XTop(t, xUp, yUp, zUp, j, k)
    requires forall i: nat, k: nat {:trigger yTop[i, k]} :: i < CHUNK_DIMENSIONS && k < CHUNK_DIMENSIONS ==> yTop[i, k] == YTop(t, xUp, yUp, zUp, i, k)
    requires FilledUpTo(t, CornerFill(xUp, yUp, zUp), chunk, i, 0, 0) == Some(c0)
    ensures r.Some? ==> FilledUpTo(t, CornerFill(xUp, yUp, zUp), chunk, i + 1, 0, 0) == r
    ensures r.None? ==> Filled(t, CornerFill(xUp, yUp, zUp), chunk).None?
  {
    var c := c0;
    var firstAll45 := t.sDim;
    for j := 0 to CHUNK_DIMENSIONS
      invariant FilledUpTo(t, CornerFill(xUp, yUp, zUp), chunk, i, j, 0) == Some(c)
      invariant firstAll45 == FirstAll45(t, xUp, yUp, zUp, i, j)
    {
      var zTop;
      zTop, firstAll45 := CornerRowTops(t, xUp, yUp, zUp, xTop, yTop, i, j, firstAll45);
      var row := CornerRow(t, xUp, yUp, zUp, xTop, yTop, chunk, i, j, zTop, firstAll45, c);
      if row.None? {
        return None;
      }
      c := row.value;
    }
    r := Some(c);
  }

  /** The z height of row (i, j), kept at or above the x and y 45-degree
      planes and capped by first_all_45, and first_all_45 as the row updates
      it. */
  method CornerRowTops(t: Terrain, xUp: BlockFace, yUp: BlockFace, zUp: BlockFace, xTop: array2<nat>, yTop: array2<nat>,
                       i: nat, j: nat, firstAll45: nat) returns (zTop: nat, next: nat)
    requires t.Valid() && i < CHUNK_DIMENSIONS && j < CHUNK_DIMENSIONS
    requires xTop.Length0 == CHUNK_DIMENSIONS && xTop.Length1 == CHUNK_DIMENSIONS
    requires yTop.Length0 == CHUNK_DIMENSIONS && yTop.Length1 == CHUNK_DIMENSIONS
    requires forall j: nat, k: nat {:trigger xTop[j, k]} :: j < CHUNK_DIMENSIONS && k < CHUNK_DIMENSIONS ==> xTop[j, k] == XTop(t, xUp, yUp, zUp, j, k)
    requires forall i: nat, k: nat {:trigger yTop[i, k]} :: i < CHUNK_DIMENSIONS && k < CHUNK_DIMENSIONS ==> yTop[i, k] == YTop(t, xUp, yUp, zUp, i, k)
    requires firstAll45 == FirstAll45(t, xUp, yUp, zUp, i, j)
    ensures zTop == ZTop(t, xUp, yUp, zUp, i, j) && next == FirstAll45(t, xUp, yUp, zUp, i, j + 1)
  {
    FirstAll45Next(t, xUp, yUp, zUp, i, j);
    zTop := Min(ZTopUncapped(t, xUp, yUp, zUp, i, j), firstAll45);
    next := firstAll45;
    if xTop[i, j] == j && yTop[i, j] == j && zTop == j && firstAll45 == t.sDim {
      next := zTop;
    }
  }

  /** The innermost loop of the corner fill: row (i, j), once its z height
      and the updated first_all_45 are known. */
  method CornerRow(t: Terrain, xUp: BlockFace, yUp: BlockFace, zUp: BlockFace, xTop: array2<nat>, yTop: array2<nat>,
                   ghost chunk: Chunk, i: nat, j: nat, zTop: nat, firstAll45: nat, c0: Chunk) returns (r: Option<Chunk>)
    requires t.Valid() && CornerFaces(xUp, yUp, zUp) && chunk.Valid() && i < CHUNK_DIMENSIONS && j < CHUNK_DIMENSIONS
    requires xTop.Length0 == CHUNK_DIMENSIONS && xTop.Length1 == CHUNK_DIMENSIONS
    requires yTop.Length0 == CHUNK_DIMENSIONS && yTop.Length1 == CHUNK_DIMENSIONS
    requires forall j: nat, k: nat {:trigger xTop[j, k]} :: j < CHUNK_DIMENSIONS && k < CHUNK_DIMENSIONS ==> xTop[j, k] == XTop(t, xUp, yUp, zUp, j, k)
    requires forall i: nat, k: nat {:trigger yTop[i, k]} :: i < CHUNK_DIMENSIONS && k < CHUNK_DIMENSIONS ==> yTop[i, k] == YTop(t, xUp, yUp, zUp, i, k)
    requires zTop == ZTop(t, xUp, yUp, zUp, i, j) && firstAll45 == FirstAll45(t, xUp, yUp, zUp, i, j + 1)
    requires FilledUpTo(t, CornerFill(xUp, yUp, zUp), chunk, i, j, 0) == Some(c0)
    ensures r.Some? ==> FilledUpTo(t, CornerFill(xUp, yUp, zUp), chunk, i, j, CHUNK_DIMENSIONS) == r
    ensures r.None? ==> Filled(t, CornerFill(xUp, yUp, zUp), chunk).None?
  {
    var c := c0;
    var xHeight := CornerHeight(t, xUp, t.sx + i);
    var yHeight := CornerHeight(t, yUp, t.sy + j);
    for k := 0 to CHUNK_DIMENSIONS
      invariant FilledUpTo(t, CornerFill(xUp, yUp, zUp), chunk, i, j, k) == Some(c)
    {
      var xt := Min(xTop[j, k], firstAll45);
      var yt := Min(yTop[i, k], firstAll45);
      var zHeight := CornerHeight(t, zUp, t.sz + k);
      var next := CornerVoxelStep(t, xUp, yUp, zUp, i, j, k, xHeight, xt, yHeight, yt, zHeight, zTop, c);
      CornerCellIs(t, xUp, yUp, zUp, i, j, k, xt, yt, zTop);
      FilledAdvance(t, CornerFill(xUp, yUp, zUp), chunk, i, j, k, c, next);
      if next.None? {
        return None;
      }
      c := next.value;
    }
    r := Some(c);
  }

  /** The body of the corner fill's innermost loop: voxel (i, j, k) given
      its three heights and the three capped tops. */
  method CornerVoxelStep(t: Terrain, xUp: BlockFace, yUp: BlockFace, zUp: BlockFace, i: nat, j: nat, k: nat,
                         xHeight: nat, xt: nat, yHeight: nat, yt: nat, zHeight: nat, zTop: nat, c: Chunk)
    returns (r: Option<Chunk>)
    requires t.Valid() && InChunk(i, j, k) && c.Valid()
    requires xHeight == CornerHeight(t, xUp, t.sx + i) && yHeight == CornerHeight(t, yUp, t.sy + j)
    requires zHeight == CornerHeight(t, zUp, t.sz + k)
    ensures r == CellStep(c, (i, j, k), CornerRule(t, xUp, yUp, zUp, i, j, k, xt, yt, zTop))
  {
    var numTop := OnTop(xHeight, xt) + OnTop(yHeight, yt) + OnTop(zHeight, zTop);
    r := Some(c);
    if xHeight <= xt && yHeight <= yt && zHeight <= zTop && numTop <= 1 {
      var up := t.planetFace(t.sx + i, t.sy + j, t.sz + k, t.sDim, t.sDim, t.sDim);
      if xHeight == xt {
        up := xUp;
      }
      if yHeight == yt {
        up := yUp;
      }
      if zHeight == zTop {
        up := zUp;
      }
      assert up == if zHeight == zTop then zUp else if yHeight == yt then yUp
                   else if xHeight == xt then xUp else t.planetFace(t.sx + i, t.sy + j, t.sz + k, t.sDim, t.sDim, t.sDim);
      var block := t.ranges.CornerBlock(xt - xHeight, yt - yHeight, zTop - zHeight);
      ghost var cell := CornerRule(t, xUp, yUp, zUp, i, j, k, xt, yt, zTop);
      if block.None? {
        assert cell == Panic;
        return None;
      }
      assert cell == Write(block.value, up);
      r := Some(c.SetBlockAt(i, j, k, block.value, up));
    }
  }
}
