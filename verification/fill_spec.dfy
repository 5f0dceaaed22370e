/** What a terrain fill does to a chunk as a whole: the loop iterations
    applied one after the other in the order the nested loops run, each one
    doing what its Cell says to the voxel it addresses, the whole fill
    aborting at the first iteration whose block lookup panics. */
module FillSpec {
  import opened Wrappers
  import opened Chunks
  import opened Terrain
  import opened TerrainFace
  import opened TerrainEdge
  import opened TerrainCorner
  import opened FillRun

  /** Which of the three fills runs, with the faces it is given. */
  datatype Fill =
    | FaceFill(up: BlockFace)
    | EdgeFill(jUp: BlockFace, kUp: BlockFace)
    | CornerFill(xUp: BlockFace, yUp: BlockFace, zUp: BlockFace)
  {
    predicate WellFormed()
    {
      match this
      case FaceFill(_) => true
      case EdgeFill(jUp, kUp) => EdgeFaces(jUp, kUp)
      case CornerFill(xUp, yUp, zUp) => CornerFaces(xUp, yUp, zUp)
    }

    /** The voxel iteration (i, j, k) addresses. */
    function Voxel(i: nat, j: nat, k: nat): (v: (nat, nat, nat))
      requires WellFormed() && InChunk(i, j, k)
      ensures InChunk(v.0, v.1, v.2)
      ensures Iteration(v) == (i, j, k)
    {
      match this
      case FaceFill(up) => FaceVoxel(up, i, j, k)
      case EdgeFill(jUp, kUp) => EdgeVoxelIteration(jUp, kUp, i, j, k); EdgeVoxel(jUp, kUp, i, j, k)
      case CornerFill(_, _, _) => (i, j, k)
    }

    /** The iteration that addresses voxel v. */
    function Iteration(v: (nat, nat, nat)): (nat, nat, nat)
      requires WellFormed()
    {
      match this
      case FaceFill(up) => FaceIteration(up, v.0, v.1, v.2)
      case EdgeFill(jUp, kUp) => EdgeIteration(jUp, kUp, v)
      case CornerFill(_, _, _) => v
    }

    /** Every voxel of the chunk is addressed by exactly one iteration. */
    lemma IterationCovers(v: (nat, nat, nat))
      requires WellFormed() && InChunk(v.0, v.1, v.2)
      ensures var it := Iteration(v);
              InChunk(it.0, it.1, it.2) && Voxel(it.0, it.1, it.2) == v
    {
      match this
      case FaceFill(up) => FaceIterationCovers(up, v.0, v.1, v.2);
      case EdgeFill(jUp, kUp) => EdgeIterationCovers(jUp, kUp, v);
      case CornerFill(_, _, _) =>
    }

    /** What iteration (i, j, k) does to its voxel. */
    function CellAt(t: Terrain, i: nat, j: nat, k: nat): Cell
      requires t.Valid() && WellFormed() && InChunk(i, j, k)
    {
      match this
      case FaceFill(up) => FaceCell(t, up, i, j, k)
      case EdgeFill(jUp, kUp) => EdgeCell(t, jUp, kUp, i, j, k)
      case CornerFill(xUp, yUp, zUp) => CornerCell(t, xUp, yUp, zUp, i, j, k)
    }
  }

  /** The plan a fill follows on terrain t. */
  function PlanFor(t: Terrain, f: Fill): (p: Plan)
    requires t.Valid() && f.WellFormed()
  {
    Plan(it => if InChunkAt(it) then f.CellAt(t, it.0, it.1, it.2) else Skip,
         it => if InChunkAt(it) then f.Voxel(it.0, it.1, it.2) else it,
         v => f.Iteration(v))
  }

  /** Every fill's plan addresses each voxel of the chunk exactly once. */
  lemma PlanForValid(t: Terrain, f: Fill)
    requires t.Valid() && f.WellFormed()
    ensures PlanFor(t, f).Valid()
  {
    var p := PlanFor(t, f);
    forall v: Triple | InChunkAt(v) ensures InChunkAt(p.iteration(v)) && p.voxel(p.iteration(v)) == v {
      f.IterationCovers(v);
    }
  }

  /** The chunk as the loops of fill f reach point (i, j, k). */
  function FilledUpTo(t: Terrain, f: Fill, orig: Chunk, i: nat, j: nat, k: nat): (r: Option<Chunk>)
    requires t.Valid() && f.WellFormed() && orig.Valid() && LoopPoint(i, j, k)
  {
    PlanForValid(t, f);
    RunTo(PlanFor(t, f), orig, i, j, k)
  }

  /** The outcome of fill f begun on `orig`: the filled chunk, or None when
      a block lookup panicked. */
  function Filled(t: Terrain, f: Fill, orig: Chunk): (r: Option<Chunk>)
    requires t.Valid() && f.WellFormed() && orig.Valid()
  {
    FilledUpTo(t, f, orig, CHUNK_DIMENSIONS, 0, 0)
  }

  /** What iteration (i, j, k) of fill f does to chunk c: None when it
      panics. */
  function Step(t: Terrain, f: Fill, c: Chunk, i: nat, j: nat, k: nat): (r: Option<Chunk>)
    requires t.Valid() && f.WellFormed() && c.Valid() && InChunk(i, j, k)
  {
    PlanForValid(t, f);
    Apply(PlanFor(t, f), c, (i, j, k))
  }

  /** A step of fill f is its iteration's Cell applied to its voxel. */
  lemma StepIsCellStep(t: Terrain, f: Fill, c: Chunk, i: nat, j: nat, k: nat)
    requires t.Valid() && f.WellFormed() && c.Valid() && InChunk(i, j, k)
    ensures Step(t, f, c, i, j, k) == CellStep(c, f.Voxel(i, j, k), f.CellAt(t, i, j, k))
  {
    PlanForValid(t, f);
  }

  /** The state after iteration (i, j, k) of a fill that has not aborted. */
  lemma FilledStep(t: Terrain, f: Fill, orig: Chunk, i: nat, j: nat, k: nat, c: Chunk)
    requires t.Valid() && f.WellFormed() && orig.Valid() && InChunk(i, j, k)
    requires FilledUpTo(t, f, orig, i, j, k) == Some(c)
    ensures c.Valid() && FilledUpTo(t, f, orig, i, j, k + 1) == Step(t, f, c, i, j, k)
  {
    PlanForValid(t, f);
  }

  /** A panicking iteration aborts the whole fill. */
  lemma FilledStaysNone(t: Terrain, f: Fill, orig: Chunk, i: nat, j: nat, k: nat)
    requires t.Valid() && f.WellFormed() && orig.Valid() && InChunk(i, j, k)
    requires f.CellAt(t, i, j, k).Panic?
    ensures Filled(t, f, orig).None?
  {
    PlanForValid(t, f);
    PanicAborts(PlanFor(t, f), orig, CHUNK_DIMENSIONS, 0, 0, (i, j, k));
  }

  /** One iteration of a fill that has not aborted, as the fill's loops run
      it: the chunk it leaves is the fill's state after it, and a panic
      aborts the whole fill. */
  lemma FilledAdvance(t: Terrain, f: Fill, orig: Chunk, i: nat, j: nat, k: nat, c: Chunk, next: Option<Chunk>)
    requires t.Valid() && f.WellFormed() && orig.Valid() && InChunk(i, j, k)
    requires FilledUpTo(t, f, orig, i, j, k) == Some(c)
    requires c.Valid() && next == CellStep(c, f.Voxel(i, j, k), f.CellAt(t, i, j, k))
    ensures next.Some? ==> FilledUpTo(t, f, orig, i, j, k + 1) == next
    ensures next.None? ==> Filled(t, f, orig).None?
  {
    FilledStep(t, f, orig, i, j, k, c);
    StepIsCellStep(t, f, c, i, j, k);
    if next.None? {
      FilledStaysNone(t, f, orig, i, j, k);
    }
  }

  /** A fill that aborts does so because one of its iterations panics. */
  lemma AbortedFillPanicked(t: Terrain, f: Fill, orig: Chunk) returns (i: nat, j: nat, k: nat)
    requires t.Valid() && f.WellFormed() && orig.Valid()
    requires Filled(t, f, orig).None?
    ensures InChunk(i, j, k) && f.CellAt(t, i, j, k).Panic?
  {
    PlanForValid(t, f);
    var p := PlanFor(t, f);
    AbortHasPanic(p, orig, CHUNK_DIMENSIONS, 0, 0);
    var it: Triple :| PanicsAt(p, it) && Order(it.0, it.1, it.2) < Order(CHUNK_DIMENSIONS, 0, 0);
    i, j, k := it.0, it.1, it.2;
  }

  /** A whole fill aborts exactly when one of its iterations panics. */
  lemma FilledNoneIffPanic(t: Terrain, f: Fill, orig: Chunk)
    requires t.Valid() && f.WellFormed() && orig.Valid()
    ensures Filled(t, f, orig).None? <==> exists a: nat, b: nat, c: nat :: InChunk(a, b, c) && f.CellAt(t, a, b, c).Panic?
  {
    if Filled(t, f, orig).None? {
      var a, b, c := AbortedFillPanicked(t, f, orig);
    } else {
      forall a: nat, b: nat, c: nat | InChunk(a, b, c) && f.CellAt(t, a, b, c).Panic? ensures false {
        FilledStaysNone(t, f, orig, a, b, c);
      }
    }
  }

  /** When a whole fill completes, every voxel holds what its own
      iteration's Cell says. */
  lemma FilledVoxel(t: Terrain, f: Fill, orig: Chunk, v: (nat, nat, nat))
    requires t.Valid() && f.WellFormed() && orig.Valid() && InChunk(v.0, v.1, v.2)
    requires Filled(t, f, orig).Some?
    ensures var it := f.Iteration(v);
            InChunk(it.0, it.1, it.2) && CellDone(Filled(t, f, orig).value, orig, v, f.CellAt(t, it.0, it.1, it.2))
  {
    PlanForValid(t, f);
    f.IterationCovers(v);
    RunVoxel(PlanFor(t, f), orig, CHUNK_DIMENSIONS, 0, 0, v);
  }
}
