/** Generating one chunk of a cube planet, and collecting the chunks whose
    generation has finished. A chunk is classified by the set of planet
    faces its eight corners belong to: one face gets the face fill, two the
    edge fill, three the corner fill. */
module Generation {
  import opened Wrappers
  import ArrayUtils
  import opened Chunks
  import opened BlockRangeTables
  import opened Structures
  import opened Terrain
  import opened TerrainEdge
  import opened TerrainCorner
  import opened FillSpec
  import opened TerrainFill

  /** The face across the planet centre from f. */
  function Opposite(f: BlockFace): BlockFace
  {
    match f
    case Top => Bottom
    case Bottom => Top
    case Right => Left
    case Left => Right
    case Front => Back
    case Back => Front
  }

  /** The eight corners of a chunk, as (x, y, z) multiples of the chunk
      size, in the order the classification loops visit them (z slowest). */
  const CORNERS: seq<(nat, nat, nat)> :=
    [(0, 0, 0), (1, 0, 0), (0, 1, 0), (1, 1, 0), (0, 0, 1), (1, 0, 1), (0, 1, 1), (1, 1, 1)]

  /** The planet face of corner n of the chunk whose lowest block is
      (sx, sy, sz), on a planet of w x h x l blocks. */
  function CornerFace(planetFace: (nat, nat, nat, nat, nat, nat) -> BlockFace,
                      sx: nat, sy: nat, sz: nat, w: nat, h: nat, l: nat, n: nat): BlockFace
    requires n < 8
  {
    var c := CORNERS[n];
    planetFace(sx + c.0 * CHUNK_DIMENSIONS, sy + c.1 * CHUNK_DIMENSIONS, sz + c.2 * CHUNK_DIMENSIONS, w, h, l)
  }

  /** The faces of the first n corners. */
  function CornerFacesUpTo(planetFace: (nat, nat, nat, nat, nat, nat) -> BlockFace,
                           sx: nat, sy: nat, sz: nat, w: nat, h: nat, l: nat, n: nat): set<BlockFace>
    requires n <= 8
  {
    if n == 0 then {} else CornerFacesUpTo(planetFace, sx, sy, sz, w, h, l, n - 1) + {CornerFace(planetFace, sx, sy, sz, w, h, l, n - 1)}
  }

  /** A face and its opposite both present: the positive one is kept. */
  function Prune(faces: set<BlockFace>): set<BlockFace>
  {
    var a := if Top in faces then faces - {Bottom} else faces;
    var b := if Right in a then a - {Left} else a;
    if Front in b then b - {Back} else b
  }

  /** No two faces of the set lie on the same axis. */
  predicate OnePerAxis(faces: set<BlockFace>)
  {
    forall f, g | f in faces && g in faces && f != g :: AxisOf(f) != AxisOf(g)
  }

  /** The face of the set on axis a, the positive one when it is there. */
  function AxisFace(faces: set<BlockFace>, a: Axis): BlockFace
  {
    match a
    case X => if Right in faces then Right else Left
    case Y => if Top in faces then Top else Bottom
    case Z => if Front in faces then Front else Back
  }

  /** A face survives pruning exactly when it is present and is positive or
      has no opposite in the set. */
  lemma PruneMembership(faces: set<BlockFace>, f: BlockFace)
    ensures f in Prune(faces) <==> f in faces && (Positive(f) || Opposite(f) !in faces)
  {
  }

  /** Pruning keeps every positive face, drops a negative face exactly when
      its positive opposite is present, and leaves one to three faces, at
      most one per axis. */
  lemma PruneFaces(faces: set<BlockFace>)
    requires faces != {}
    ensures Prune(faces) <= faces
    ensures forall f | f in faces && Positive(f) :: f in Prune(faces)
    ensures forall f | f in faces && !Positive(f) :: f in Prune(faces) <==> Opposite(f) !in faces
    ensures OnePerAxis(Prune(faces))
    ensures 1 <= |Prune(faces)| <= 3
  {
    forall f {
      PruneMembership(faces, f);
    }
    PruneOnAxes(faces);
    PruneSize(faces);
  }

  /** Each face left by pruning is the face AxisFace picks on its axis. */
  lemma PruneOnAxes(faces: set<BlockFace>)
    ensures forall g | g in Prune(faces) :: g == AxisFace(faces, AxisOf(g))
  {
    forall g | g in Prune(faces) ensures g == AxisFace(faces, AxisOf(g)) {
      PruneMembership(faces, g);
    }
  }

  /** Pruning a nonempty set leaves one to three faces. */
  lemma PruneSize(faces: set<BlockFace>)
    requires faces != {}
    requires forall g | g in Prune(faces) :: g == AxisFace(faces, AxisOf(g))
    ensures 1 <= |Prune(faces)| <= 3
  {
    var p := Prune(faces);
    var f :| f in faces;
    var kept := if Positive(f) || Opposite(f) !in faces then f else Opposite(f);
    PruneMembership(faces, kept);
    assert kept in p;
    var axes := {AxisFace(faces, X), AxisFace(faces, Y), AxisFace(faces, Z)};
    assert p <= axes;
    assert axes == p + (axes - p);
  }

  /** The faces a fill is given. */
  function FacesOf(fill: Fill): set<BlockFace>
  {
    match fill
    case FaceFill(up) => {up}
    case EdgeFill(jUp, kUp) => {jUp, kUp}
    case CornerFill(xUp, yUp, zUp) => {xUp, yUp, zUp}
  }

  /** Generation-time context of a chunk: the block coordinates of its
      lowest corner, the planet's height as the size of the cube, and the
      seed height five chunks below the planet's top. */
  function GenerationTerrain(chunk: Chunk, sHeight: nat, ranges: BlockRanges,
                             topHeight: ((nat, nat, nat)) -> nat,
                             planetFace: (nat, nat, nat, nat, nat, nat) -> BlockFace): (t: Terrain)
    requires sHeight >= 5 * CHUNK_DIMENSIONS
  {
    Terrain(chunk.structureX * CHUNK_DIMENSIONS, chunk.structureY * CHUNK_DIMENSIONS, chunk.structureZ * CHUNK_DIMENSIONS,
            sHeight, sHeight - 5 * CHUNK_DIMENSIONS, ranges, topHeight, planetFace)
  }

  /** The chunk lies inside the cube of side sHeight the fills work in. */
  predicate ChunkInCube(chunk: Chunk, sHeight: nat)
  {
    && (chunk.structureX + 1) * CHUNK_DIMENSIONS <= sHeight
    && (chunk.structureY + 1) * CHUNK_DIMENSIONS <= sHeight
    && (chunk.structureZ + 1) * CHUNK_DIMENSIONS <= sHeight
  }

  /** Visiting corner (x, y, z) adds its face to those of the corners
      before it. */
  lemma CornerFacesNext(planetFace: (nat, nat, nat, nat, nat, nat) -> BlockFace,
                        sx: nat, sy: nat, sz: nat, w: nat, h: nat, l: nat, x: nat, y: nat, z: nat)
    requires x < 2 && y < 2 && z < 2
    ensures CornerFacesUpTo(planetFace, sx, sy, sz, w, h, l, z * 4 + y * 2 + x + 1)
            == CornerFacesUpTo(planetFace, sx, sy, sz, w, h, l, z * 4 + y * 2 + x)
               + {planetFace(sx + x * CHUNK_DIMENSIONS, sy + y * CHUNK_DIMENSIONS, sz + z * CHUNK_DIMENSIONS, w, h, l)}
  {
    assert CORNERS[z * 4 + y * 2 + x] == (x, y, z);
  }

  /** The set of planet faces the eight corners of the chunk at block
      coordinates (sx, sy, sz) belong to, after pruning. */
  method PlanetFaces(planetFace: (nat, nat, nat, nat, nat, nat) -> BlockFace,
                     sx: nat, sy: nat, sz: nat, w: nat, h: nat, l: nat) returns (faces: set<BlockFace>)
    ensures faces == Prune(CornerFacesUpTo(planetFace, sx, sy, sz, w, h, l, 8))
  {
    faces := {};
    for z := 0 to 2
      invariant faces == CornerFacesUpTo(planetFace, sx, sy, sz, w, h, l, z * 4)
    {
      for y := 0 to 2
        invariant faces == CornerFacesUpTo(planetFace, sx, sy, sz, w, h, l, z * 4 + y * 2)
      {
        for x := 0 to 2
          invariant faces == CornerFacesUpTo(planetFace, sx, sy, sz, w, h, l, z * 4 + y * 2 + x)
        {
          CornerFacesNext(planetFace, sx, sy, sz, w, h, l, x, y, z);
          faces := faces + {planetFace(sx + x * CHUNK_DIMENSIONS, sy + y * CHUNK_DIMENSIONS, sz + z * CHUNK_DIMENSIONS, w, h, l)};
        }
      }
    }
    if Top in faces {
      faces := faces - {Bottom};
    }
    if Right in faces {
      faces := faces - {Left};
    }
    if Front in faces {
      faces := faces - {Back};
    }
  }

  /** The fill a pruned face set calls for: the face fill for one face,
      the edge fill for two (in whichever order the set yields them), the
      corner fill for three, its x, y and z faces picked by membership. */
  method ChooseFill(faces: set<BlockFace>) returns (fill: Fill)
    requires 1 <= |faces| <= 3 && OnePerAxis(faces)
    ensures fill.WellFormed() && FacesOf(fill) == faces
    ensures |faces| == 1 <==> fill.FaceFill?
    ensures |faces| == 2 <==> fill.EdgeFill?
    ensures |faces| == 3 <==> fill.CornerFill?
  {
    if |faces| == 1 {
      var up :| up in faces;
      assert faces == {up} by {
        assert |faces - {up}| == 0;
      }
      fill := FaceFill(up);
    } else if |faces| == 2 {
      var jUp :| jUp in faces;
      assert |faces - {jUp}| == 1;
      var kUp :| kUp in faces - {jUp};
      assert faces == {jUp, kUp} by {
        assert {jUp, kUp} <= faces;
        assert |faces - {jUp, kUp}| == 0;
      }
      fill := EdgeFill(jUp, kUp);
    } else {
      var xFace := if Right in faces then Right else Left;
      var yFace := if Top in faces then Top else Bottom;
      var zFace := if Front in faces then Front else Back;
      CornerSetIsAxisFaces(faces);
      fill := CornerFill(xFace, yFace, zFace);
    }
  }

  /** Three faces, one per axis, are the x, y and z faces AxisFace picks. */
  lemma CornerSetIsAxisFaces(faces: set<BlockFace>)
    requires |faces| == 3 && OnePerAxis(faces)
    ensures faces == {AxisFace(faces, X), AxisFace(faces, Y), AxisFace(faces, Z)}
  {
    var axes := {AxisFace(faces, X), AxisFace(faces, Y), AxisFace(faces, Z)};
    assert forall g | g in faces :: g == AxisFace(faces, AxisOf(g));
    assert faces <= axes;
    assert |axes| <= 3;
    assert axes == faces + (axes - faces);
  }

  /** Generates one chunk of a planet of w x sHeight x l blocks: the chunk is
      classified by its corners' faces and filled by the face, edge or
      corner fill given exactly those faces. `fill` reports the fill that
      ran. The result is None when the planet is lower than five chunks (the
      seed height would underflow) or when a block lookup panics. */
  method GenerateChunk(chunk: Chunk, w: nat, sHeight: nat, l: nat, ranges: BlockRanges,
                       topHeight: ((nat, nat, nat)) -> nat,
                       planetFace: (nat, nat, nat, nat, nat, nat) -> BlockFace)
    returns (r: Option<Chunk>, fill: Fill)
    requires chunk.Valid() && ChunkInCube(chunk, sHeight)
    ensures sHeight < 5 * CHUNK_DIMENSIONS ==> r.None?
    ensures sHeight >= 5 * CHUNK_DIMENSIONS ==>
              var t := GenerationTerrain(chunk, sHeight, ranges, topHeight, planetFace);
              var faces := Prune(CornerFacesUpTo(planetFace, t.sx, t.sy, t.sz, w, sHeight, l, 8));
              && fill.WellFormed() && FacesOf(fill) == faces
              && (|faces| == 1 <==> fill.FaceFill?)
              && (|faces| == 2 <==> fill.EdgeFill?)
              && (|faces| == 3 <==> fill.CornerFill?)
              && t.Valid() && r == Filled(t, fill, chunk)
  {
    fill := FaceFill(Top);
    if sHeight < 5 * CHUNK_DIMENSIONS {
      return None, fill;
    }
    var t := GenerationTerrain(chunk, sHeight, ranges, topHeight, planetFace);
    var faces := PlanetFaces(planetFace, t.sx, t.sy, t.sz, w, sHeight, l);
    assert CornerFace(planetFace, t.sx, t.sy, t.sz, w, sHeight, l, 7) in CornerFacesUpTo(planetFace, t.sx, t.sy, t.sz, w, sHeight, l, 8);
    PruneFaces(CornerFacesUpTo(planetFace, t.sx, t.sy, t.sz, w, sHeight, l, 8));
    fill := ChooseFill(faces);
    r := RunFill(t, fill, chunk);
  }

  /** Runs the fill the classification chose. */
  method RunFill(t: Terrain, fill: Fill, chunk: Chunk) returns (r: Option<Chunk>)
    requires t.Valid() && fill.WellFormed() && chunk.Valid()
    ensures r == Filled(t, fill, chunk)
  {
    match fill {
      case FaceFill(up) =>
        r := DoFace(t, up, chunk);
      case EdgeFill(jUp, kUp) =>
        r := DoEdge(t, jUp, kUp, chunk);
      case CornerFill(xUp, yUp, zUp) =>
        r := DoCorner(t, xUp, yUp, zUp, chunk);
    }
  }

  /** Sent once a generated chunk has been stored in its structure. */
  datatype ChunkInitEvent = ChunkInitEvent(structureEntity: Entity, x: nat, y: nat, z: nat)

  /** A generation task: still running (an opaque handle), or finished with
      the generated chunk and the entity of the structure it belongs to. */
  datatype GeneratingChunk = Pending(task: nat) | Finished(chunk: Chunk, structureEntity: Entity)

  /** The tasks still running, in their original order. */
  function StillPending(tasks: seq<GeneratingChunk>): (r: seq<GeneratingChunk>)
  {
    if tasks == [] then []
    else StillPending(tasks[..|tasks| - 1]) + (if tasks[|tasks| - 1].Pending? then [tasks[|tasks| - 1]] else [])
  }

  /** The init events of the finished tasks whose structure exists, in task
      order. */
  function InitEvents(tasks: seq<GeneratingChunk>, present: set<Entity>): (r: seq<ChunkInitEvent>)
  {
    if tasks == [] then []
    else
      var t := tasks[|tasks| - 1];
      InitEvents(tasks[..|tasks| - 1], present)
      + (if t.Finished? && t.structureEntity in present
         then [ChunkInitEvent(t.structureEntity, t.chunk.structureX, t.chunk.structureY, t.chunk.structureZ)]
         else [])
  }

  /** The finished chunks of structure e, in task order. */
  function MergedInto(tasks: seq<GeneratingChunk>, e: Entity): (r: seq<Chunk>)
  {
    if tasks == [] then []
    else
      var t := tasks[|tasks| - 1];
      MergedInto(tasks[..|tasks| - 1], e) + (if t.Finished? && t.structureEntity == e then [t.chunk] else [])
  }

  /** Finished tasks whose structure no longer exists. */
  function Dropped(tasks: seq<GeneratingChunk>, present: set<Entity>): nat
  {
    if tasks == [] then 0
    else
      var t := tasks[|tasks| - 1];
      Dropped(tasks[..|tasks| - 1], present) + (if t.Finished? && t.structureEntity !in present then 1 else 0)
  }

  /** The slot a chunk belongs in, in a grid `width` chunks wide and
      `height` chunks high. */
  function SlotOf(c: Chunk, width: nat, height: nat): nat
  {
    ArrayUtils.Flatten(c.structureX, c.structureY, c.structureZ, width, height)
  }

  /** The chunk vector after storing each of `merged` in turn in the slot
      its coordinates flatten to (a chunk whose slot lies outside the vector
      changes nothing). */
  function StoreAll(chunks: seq<Chunk>, merged: seq<Chunk>, width: nat, height: nat): (r: seq<Chunk>)
    ensures |r| == |chunks|
  {
    if merged == [] then chunks
    else
      var last := merged[|merged| - 1];
      var before := StoreAll(chunks, merged[..|merged| - 1], width, height);
      if SlotOf(last, width, height) < |chunks| then before[SlotOf(last, width, height) := last] else before
  }

  /** Every task is accounted for exactly once: still running, stored with
      an init event, or dropped. */
  lemma {:induction false} TasksAccounted(tasks: seq<GeneratingChunk>, present: set<Entity>)
    ensures |StillPending(tasks)| + |InitEvents(tasks, present)| + Dropped(tasks, present) == |tasks|
  {
    if tasks != [] {
      TasksAccounted(tasks[..|tasks| - 1], present);
    }
  }

  /** The tasks kept are exactly the running ones, and keeping them
      distributes over concatenation, so their relative order is kept. */
  lemma {:induction false} StillPendingKeepsOrder(a: seq<GeneratingChunk>, b: seq<GeneratingChunk>)
    ensures StillPending(a + b) == StillPending(a) + StillPending(b)
    ensures forall t :: t in StillPending(a) <==> t in a && t.Pending?
    decreases |b|
  {
    if b == [] {
      assert a + b == a;
      StillPendingMembers(a);
    } else {
      assert (a + b)[..|a + b| - 1] == a + b[..|b| - 1];
      StillPendingKeepsOrder(a, b[..|b| - 1]);
    }
  }

  lemma {:induction false} StillPendingMembers(a: seq<GeneratingChunk>)
    ensures forall t :: t in StillPending(a) <==> t in a && t.Pending?
  {
    if a != [] {
      StillPendingMembers(a[..|a| - 1]);
      assert a == a[..|a| - 1] + [a[|a| - 1]];
    }
  }

  /** Each init event carries the coordinates of a finished chunk of an
      existing structure. */
  lemma {:induction false} InitEventsFromFinished(tasks: seq<GeneratingChunk>, present: set<Entity>)
    ensures forall ev | ev in InitEvents(tasks, present) ::
              ev.structureEntity in present
              && exists t | t in tasks :: t.Finished? && t.structureEntity == ev.structureEntity
                                          && (ev.x, ev.y, ev.z) == (t.chunk.structureX, t.chunk.structureY, t.chunk.structureZ)
  {
    if tasks != [] {
      InitEventsFromFinished(tasks[..|tasks| - 1], present);
      assert forall t | t in tasks[..|tasks| - 1] :: t in tasks;
    }
  }

  /** After storing, a slot holds the last stored chunk that belongs in it,
      or its old chunk when none does. */
  lemma {:induction false} StoreAllSlot(chunks: seq<Chunk>, merged: seq<Chunk>, width: nat, height: nat, i: nat)
    requires i < |chunks|
    ensures (forall c | c in merged :: SlotOf(c, width, height) != i) ==> StoreAll(chunks, merged, width, height)[i] == chunks[i]
    ensures merged != [] && SlotOf(merged[|merged| - 1], width, height) == i ==>
              StoreAll(chunks, merged, width, height)[i] == merged[|merged| - 1]
  {
    if merged != [] {
      StoreAllSlot(chunks, merged[..|merged| - 1], width, height, i);
    }
  }

  /** Storing one more chunk. */
  lemma StoreAllSnoc(chunks: seq<Chunk>, merged: seq<Chunk>, c: Chunk, width: nat, height: nat)
    ensures StoreAll(chunks, merged + [c], width, height)
            == if SlotOf(c, width, height) < |chunks| then StoreAll(chunks, merged, width, height)[SlotOf(c, width, height) := c]
               else StoreAll(chunks, merged, width, height)
  {
    assert (merged + [c])[..|merged|] == merged;
  }

  /** The merged chunks of one more task. */
  lemma MergedIntoSnoc(tasks: seq<GeneratingChunk>, t: GeneratingChunk, e: Entity)
    ensures t.Finished? && t.structureEntity == e ==> MergedInto(tasks + [t], e) == MergedInto(tasks, e) + [t.chunk]
    ensures !(t.Finished? && t.structureEntity == e) ==> MergedInto(tasks + [t], e) == MergedInto(tasks, e)
  {
    assert (tasks + [t])[..|tasks|] == tasks;
    assert MergedInto(tasks, e) + [] == MergedInto(tasks, e);
  }

  /** Drains the finished generation tasks: a finished chunk whose structure
      exists is stored in it and announced with a ChunkInitEvent; one whose
      structure is gone is dropped; a running task is queued again in its
      original order. */
  method NotifyWhenDoneGenerating(generating: seq<GeneratingChunk>, structures: map<Entity, Structure>)
    returns (stillTodo: seq<GeneratingChunk>, events: seq<ChunkInitEvent>)
    requires forall e, e' | e in structures && e' in structures && e != e' :: structures[e] != structures[e']
    requires forall e | e in structures :: structures[e].Valid()
    requires forall t | t in generating && t.Finished? && t.structureEntity in structures ::
               var s := structures[t.structureEntity];
               t.chunk.Valid() && SlotOf(t.chunk, s.width, s.height) < |s.chunks|
    modifies structures.Values`chunks
    ensures stillTodo == StillPending(generating)
    ensures events == InitEvents(generating, structures.Keys)
    ensures forall e | e in structures :: structures[e].Valid()
    ensures forall e | e in structures ::
              structures[e].chunks == StoreAll(old(structures[e].chunks), MergedInto(generating, e),
                                               structures[e].width, structures[e].height)
  {
    stillTodo := [];
    events := [];
    ghost var orig := map e | e in structures :: structures[e].chunks;
    for n := 0 to |generating|
      invariant stillTodo == StillPending(generating[..n])
      invariant events == InitEvents(generating[..n], structures.Keys)
      invariant forall e | e in structures :: structures[e].Valid() && |structures[e].chunks| == |orig[e]|
      invariant forall e | e in structures ::
                  structures[e].chunks == StoreAll(orig[e], MergedInto(generating[..n], e), structures[e].width, structures[e].height)
    {
      var task := generating[n];
      assert generating[..n + 1] == generating[..n] + [task];
      if task.Finished? && task.structureEntity in structures {
        var chunk, entity := task.chunk, task.structureEntity;
        var s := structures[entity];
        ghost var before := s.chunks;
        label Before:
        s.SetChunk(chunk);
        forall e | e in structures && e != entity
          ensures structures[e].chunks == StoreAll(orig[e], MergedInto(generating[..n + 1], e), structures[e].width, structures[e].height)
        {
          assert structures[e] != s;
          assert structures[e].chunks == old@Before(structures[e].chunks);
          MergedIntoSnoc(generating[..n], task, e);
        }
        MergedIntoSnoc(generating[..n], task, entity);
        StoreAllSnoc(orig[entity], MergedInto(generating[..n], entity), chunk, s.width, s.height);
        assert before == StoreAll(orig[entity], MergedInto(generating[..n], entity), s.width, s.height);
        assert s.chunks == StoreAll(orig[entity], MergedInto(generating[..n + 1], entity), s.width, s.height);
        events := events + [ChunkInitEvent(entity, chunk.structureX, chunk.structureY, chunk.structureZ)];
      } else {
        forall e {
          MergedIntoSnoc(generating[..n], task, e);
        }
        if task.Pending? {
          stillTodo := stillTodo + [task];
        }
      }
    }
    assert generating[..|generating|] == generating;
  }

  /** Every chunk stored into a structure is the chunk of a finished task
      for that structure. */
  lemma {:induction false} MergedMembers(tasks: seq<GeneratingChunk>)
    ensures forall e, c | c in MergedInto(tasks, e) :: exists t | t in tasks :: t.Finished? && t.structureEntity == e && t.chunk == c
  {
    if tasks != [] {
      MergedMembers(tasks[..|tasks| - 1]);
      assert forall t | t in tasks[..|tasks| - 1] :: t in tasks;
    }
  }
}
