/** Running nested fill loops over a chunk, whatever the fill: a plan says
    what each iteration (i, j, k) does (its Cell) and which voxel it
    addresses. The iterations run in loop order, k fastest; the run aborts
    at the first iteration that panics. */
module FillRun {
  import opened Wrappers
  import opened Chunks
  import opened Terrain

  type Triple = (nat, nat, nat)

  predicate InChunkAt(p: Triple)
  {
    InChunk(p.0, p.1, p.2)
  }

  /** What each iteration does, the voxel it addresses, and the inverse
      map from a voxel to the iteration that addresses it. */
  datatype Plan = Plan(cell: Triple -> Cell, voxel: Triple -> Triple, iteration: Triple -> Triple)
  {
    /** Every iteration addresses its own voxel of the chunk, and every
        voxel is addressed by exactly one iteration. */
    ghost predicate Valid()
    {
      && (forall it: Triple :: InChunkAt(it) ==> InChunkAt(voxel(it)) && iteration(voxel(it)) == it)
      && (forall v: Triple :: InChunkAt(v) ==> InChunkAt(iteration(v)) && voxel(iteration(v)) == v)
    }
  }

  /** (i, j, k) is a point the nested loops pass through: an iteration,
      the end of a row (k == 32), the end of a slice (j == 32, k == 0) or
      the end of the run (32, 0, 0). */
  predicate LoopPoint(i: nat, j: nat, k: nat)
  {
    i <= CHUNK_DIMENSIONS && j <= CHUNK_DIMENSIONS && k <= CHUNK_DIMENSIONS
    && (k > 0 ==> j < CHUNK_DIMENSIONS) && (j > 0 || k > 0 ==> i < CHUNK_DIMENSIONS)
  }

  /** What iteration `it` does to chunk c: None when it panics. */
  function Apply(p: Plan, c: Chunk, it: Triple): (r: Option<Chunk>)
    requires p.Valid() && c.Valid() && InChunkAt(it)
    ensures r.Some? ==> r.value.Valid()
    ensures r.Some? ==> r.value.structureX == c.structureX && r.value.structureY == c.structureY
                        && r.value.structureZ == c.structureZ
  {
    CellStep(c, p.voxel(it), p.cell(it))
  }

  /** The chunk as the loops reach point (i, j, k) of a run of p begun on
      `orig`, or None when an earlier iteration panicked. */
  function RunTo(p: Plan, orig: Chunk, i: nat, j: nat, k: nat): (r: Option<Chunk>)
    requires p.Valid() && orig.Valid() && LoopPoint(i, j, k)
    ensures r.Some? ==> r.value.Valid()
    ensures r.Some? ==> r.value.structureX == orig.structureX && r.value.structureY == orig.structureY
                        && r.value.structureZ == orig.structureZ
    decreases i, j, k
  {
    if k > 0 then
      match RunTo(p, orig, i, j, k - 1)
      case None => None
      case Some(c) => Apply(p, c, (i, j, k - 1))
    else if j > 0 then RunTo(p, orig, i, j - 1, CHUNK_DIMENSIONS)
    else if i > 0 then RunTo(p, orig, i - 1, CHUNK_DIMENSIONS, 0)
    else Some(orig)
  }

  /** Iteration it panics. */
  predicate PanicsAt(p: Plan, it: Triple)
  {
    InChunkAt(it) && p.cell(it).Panic?
  }

  /** A panic in an iteration before point (i, j, k) has aborted the run by
      that point. */
  lemma {:induction false} PanicAborts(p: Plan, orig: Chunk, i: nat, j: nat, k: nat, it: Triple)
    requires p.Valid() && orig.Valid() && LoopPoint(i, j, k)
    requires PanicsAt(p, it) && Order(it.0, it.1, it.2) < Order(i, j, k)
    ensures RunTo(p, orig, i, j, k).None?
    decreases i, j, k
  {
    if k > 0 {
      if Order(it.0, it.1, it.2) == Order(i, j, k - 1) {
        OrderInjective(it.0, it.1, it.2, i, j, k - 1);
      } else {
        PanicAborts(p, orig, i, j, k - 1, it);
      }
    } else if j > 0 {
      PanicAborts(p, orig, i, j - 1, CHUNK_DIMENSIONS, it);
    } else if i > 0 {
      PanicAborts(p, orig, i - 1, CHUNK_DIMENSIONS, 0, it);
    }
  }

  /** A run aborted by point (i, j, k) was aborted by the panic of an
      iteration before that point. */
  lemma {:induction false} AbortHasPanic(p: Plan, orig: Chunk, i: nat, j: nat, k: nat)
    requires p.Valid() && orig.Valid() && LoopPoint(i, j, k)
    requires RunTo(p, orig, i, j, k).None?
    ensures exists it: Triple :: PanicsAt(p, it) && Order(it.0, it.1, it.2) < Order(i, j, k)
    decreases i, j, k
  {
    if k > 0 {
      if RunTo(p, orig, i, j, k - 1).None? {
        AbortHasPanic(p, orig, i, j, k - 1);
      } else {
        assert PanicsAt(p, (i, j, k - 1));
      }
    } else if j > 0 {
      AbortHasPanic(p, orig, i, j - 1, CHUNK_DIMENSIONS);
    } else if i > 0 {
      AbortHasPanic(p, orig, i - 1, CHUNK_DIMENSIONS, 0);
    }
  }

  /** What voxel v of c holds at point (i, j, k): what its iteration's Cell
      says once that iteration has run, its contents in `orig` before. */
  predicate VoxelAt(p: Plan, orig: Chunk, c: Chunk, i: nat, j: nat, k: nat, v: Triple)
    requires p.Valid() && orig.Valid() && c.Valid() && InChunkAt(v)
  {
    var it := p.iteration(v);
    (Order(it.0, it.1, it.2) < Order(i, j, k) ==> CellDone(c, orig, v, p.cell(it)))
    && (Order(i, j, k) <= Order(it.0, it.1, it.2) ==> Untouched(c, orig, v))
  }

  /** Iteration (i, j, k) keeps VoxelAt for every voxel. */
  lemma VoxelAtStep(p: Plan, orig: Chunk, c: Chunk, i: nat, j: nat, k: nat, v: Triple)
    requires p.Valid() && orig.Valid() && c.Valid() && InChunk(i, j, k) && InChunkAt(v)
    requires VoxelAt(p, orig, c, i, j, k, v) && Apply(p, c, (i, j, k)).Some?
    ensures VoxelAt(p, orig, Apply(p, c, (i, j, k)).value, i, j, k + 1, v)
  {
    var it := p.iteration(v);
    var cell := p.cell((i, j, k));
    var w := p.voxel((i, j, k));
    assert InChunkAt(it) && InChunkAt(w);
    if Order(it.0, it.1, it.2) == Order(i, j, k) {
      OrderInjective(it.0, it.1, it.2, i, j, k);
    } else if cell.Write? {
      c.SetBlockAtLeavesOthers(w.0, w.1, w.2, cell.block, cell.up, v.0, v.1, v.2);
    }
  }

  /** At point (i, j, k), a voxel whose iteration has run holds what that
      iteration's Cell says, and any other voxel is untouched. */
  lemma {:induction false} RunVoxel(p: Plan, orig: Chunk, i: nat, j: nat, k: nat, v: Triple)
    requires p.Valid() && orig.Valid() && LoopPoint(i, j, k)
    requires InChunkAt(v) && RunTo(p, orig, i, j, k).Some?
    ensures VoxelAt(p, orig, RunTo(p, orig, i, j, k).value, i, j, k, v)
    decreases i, j, k
  {
    if k > 0 {
      RunVoxel(p, orig, i, j, k - 1, v);
      RunVoxelStep(p, orig, i, j, k - 1, v);
    } else if j > 0 {
      RunVoxel(p, orig, i, j - 1, CHUNK_DIMENSIONS, v);
    } else if i > 0 {
      RunVoxel(p, orig, i - 1, CHUNK_DIMENSIONS, 0, v);
    }
  }

  /** VoxelAt carries over iteration (i, j, k) of a run. */
  lemma RunVoxelStep(p: Plan, orig: Chunk, i: nat, j: nat, k: nat, v: Triple)
    requires p.Valid() && orig.Valid() && InChunk(i, j, k) && InChunkAt(v)
    requires RunTo(p, orig, i, j, k + 1).Some?
    requires VoxelAt(p, orig, RunTo(p, orig, i, j, k).value, i, j, k, v)
    ensures VoxelAt(p, orig, RunTo(p, orig, i, j, k + 1).value, i, j, k + 1, v)
  {
    VoxelAtStep(p, orig, RunTo(p, orig, i, j, k).value, i, j, k, v);
  }
}
