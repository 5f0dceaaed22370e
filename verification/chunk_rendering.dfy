/** Rendering one chunk: which faces of which blocks go into the chunk's
    mesh, and which blocks give off light. A face of a block is drawn when
    the block across that face lets light through, or when the face lies on
    the chunk's border and the neighbouring chunk is missing or lets light
    through at the facing cell. */
module ChunkRendering {
  import opened Wrappers
  import opened ArrayUtils
  import opened Chunks

  type Voxel = (nat, nat, nat)

  /** A light-emitting block's light (colour as red, green, blue). */
  datatype LightProperties = LightProperties(color: (real, real, real), intensity: real, range: real, shadowsDisabled: bool)

  /** The block registries the renderer consults, per block id: whether the
      block lets light through, whether it has a material and a mesh, and
      the light it gives off. */
  datatype Registries = Registries(
    seeThrough: BlockId -> bool,
    hasMaterial: BlockId -> bool,
    hasMesh: BlockId -> bool,
    lighting: BlockId -> Option<LightProperties>)

  /** The six chunks around the rendered one, None where there is none:
      `left`/`right` at x -/+ 1, `bottom`/`top` at y -/+ 1, `back`/`front`
      at z -/+ 1. */
  datatype Neighbours = Neighbours(
    left: Option<Chunk>, right: Option<Chunk>,
    bottom: Option<Chunk>, top: Option<Chunk>,
    back: Option<Chunk>, front: Option<Chunk>)
  {
    predicate Valid()
    {
      && (left.Some? ==> left.value.Valid()) && (right.Some? ==> right.value.Valid())
      && (bottom.Some? ==> bottom.value.Valid()) && (top.Some? ==> top.value.Valid())
      && (back.Some? ==> back.value.Valid()) && (front.Some? ==> front.value.Valid())
    }
  }

  /** Everything one render of a chunk reads. */
  datatype RenderInput = RenderInput(chunk: Chunk, neighbours: Neighbours, reg: Registries)
  {
    predicate Valid()
    {
      chunk.Valid() && neighbours.Valid()
    }
  }

  /** The step from a block to the block across face f. */
  function Offset(f: BlockFace): (int, int, int)
  {
    match f
    case Right => (1, 0, 0)
    case Left => (-1, 0, 0)
    case Top => (0, 1, 0)
    case Bottom => (0, -1, 0)
    case Back => (0, 0, 1)
    case Front => (0, 0, -1)
  }

  /** The neighbouring chunk that lies across face f. */
  function Toward(nb: Neighbours, f: BlockFace): Option<Chunk>
  {
    match f
    case Right => nb.right
    case Left => nb.left
    case Top => nb.top
    case Bottom => nb.bottom
    case Back => nb.front
    case Front => nb.back
  }

  /** A coordinate one step outside the chunk, as a coordinate of the
      neighbouring chunk. */
  function Wrap(v: int): (r: nat)
    ensures r < CHUNK_DIMENSIONS
    ensures 0 <= v < CHUNK_DIMENSIONS ==> r == v
    ensures v == -1 ==> r == CHUNK_DIMENSIONS - 1
    ensures v == CHUNK_DIMENSIONS ==> r == 0
  {
    v % CHUNK_DIMENSIONS
  }

  /** Whether a chunk that may be missing lets light through at (x, y, z);
      a missing chunk does. */
  predicate SeeThroughIn(see: BlockId -> bool, o: Option<Chunk>, x: nat, y: nat, z: nat)
    requires o.Some? ==> o.value.Valid()
    requires InChunk(x, y, z)
  {
    match o
    case None => true
    case Some(c) => see(c.BlockAt(x, y, z))
  }

  /** Face f of the block at v is exposed: the cell across it, in this chunk
      or in the neighbouring one, lets light through, or that neighbouring
      chunk is missing. */
  predicate Exposed(inp: RenderInput, v: Voxel, f: BlockFace)
    requires inp.Valid() && InChunk(v.0, v.1, v.2)
  {
    var d := Offset(f);
    var x, y, z := v.0 + d.0, v.1 + d.1, v.2 + d.2;
    if 0 <= x < CHUNK_DIMENSIONS && 0 <= y < CHUNK_DIMENSIONS && 0 <= z < CHUNK_DIMENSIONS then
      inp.reg.seeThrough(inp.chunk.BlockAt(x, y, z))
    else
      SeeThroughIn(inp.reg.seeThrough, Toward(inp.neighbours, f), Wrap(x), Wrap(y), Wrap(z))
  }

  /** No face is listed twice. */
  predicate Distinct(s: seq<BlockFace>)
  {
    forall i, j | 0 <= i < j < |s| :: s[i] != s[j]
  }

  /** s with face f pushed when flag b is set. */
  function Push(s: seq<BlockFace>, b: bool, f: BlockFace): (r: seq<BlockFace>)
    ensures b ==> f in r
    ensures forall g | g in r :: g in s || (b && g == f)
  {
    if b then s + [f] else s
  }

  /** The flag among six that belongs to face f. */
  function FlagOf(f: BlockFace, right: bool, left: bool, top: bool, bottom: bool, back: bool, front: bool): bool
  {
    match f
    case Right => right
    case Left => left
    case Top => top
    case Bottom => bottom
    case Back => back
    case Front => front
  }

  /** `faces` with each face whose flag is set pushed onto it, in the order
      right, left, top, bottom, back, front. */
  function PushFlagged(faces: seq<BlockFace>, right: bool, left: bool, top: bool, bottom: bool, back: bool, front: bool): seq<BlockFace>
  {
    Push(Push(Push(Push(Push(Push(faces, right, Right), left, Left), top, Top), bottom, Bottom), back, Back), front, Front)
  }

  /** A face is in the pushed list iff it was there before or its flag is
      set. */
  lemma PushFlaggedHas(faces: seq<BlockFace>, right: bool, left: bool, top: bool, bottom: bool, back: bool, front: bool, f: BlockFace)
    ensures f in PushFlagged(faces, right, left, top, bottom, back, front)
            <==> f in faces || FlagOf(f, right, left, top, bottom, back, front)
  {
    var r1 := Push(faces, right, Right);
    var r2 := Push(r1, left, Left);
    var r3 := Push(r2, top, Top);
    var r4 := Push(r3, bottom, Bottom);
    var r5 := Push(r4, back, Back);
    var r6 := Push(r5, front, Front);
    assert f in r6 <==> f in r5 || (front && f == Front);
    assert f in r5 <==> f in r4 || (back && f == Back);
    assert f in r4 <==> f in r3 || (bottom && f == Bottom);
    assert f in r3 <==> f in r2 || (top && f == Top);
    assert f in r2 <==> f in r1 || (left && f == Left);
    assert f in r1 <==> f in faces || (right && f == Right);
  }

  /** Pushing a face not yet listed keeps the list free of repeats. */
  lemma PushDistinct(s: seq<BlockFace>, b: bool, f: BlockFace)
    requires Distinct(s) && f !in s
    ensures Distinct(Push(s, b, f))
  {
  }

  /** Pushed onto an empty list, the flagged faces are listed once each. */
  lemma PushFlaggedDistinct(right: bool, left: bool, top: bool, bottom: bool, back: bool, front: bool)
    ensures Distinct(PushFlagged([], right, left, top, bottom, back, front))
  {
    var r1 := Push([], right, Right);
    var r2 := Push(r1, left, Left);
    var r3 := Push(r2, top, Top);
    var r4 := Push(r3, bottom, Bottom);
    var r5 := Push(r4, back, Back);
    PushDistinct([], right, Right);
    PushDistinct(r1, left, Left);
    assert forall g | g in r2 :: g == Right || g == Left;
    PushDistinct(r2, top, Top);
    assert forall g | g in r3 :: g == Right || g == Left || g == Top;
    PushDistinct(r3, bottom, Bottom);
    assert forall g | g in r4 :: g == Right || g == Left || g == Top || g == Bottom;
    PushDistinct(r4, back, Back);
    assert forall g | g in r5 :: g == Right || g == Left || g == Top || g == Bottom || g == Back;
    PushDistinct(r5, front, Front);
  }

  /** `faces` with the exposed faces of the block at v pushed onto it. */
  function PushVisible(faces: seq<BlockFace>, inp: RenderInput, v: Voxel): seq<BlockFace>
    requires inp.Valid() && InChunk(v.0, v.1, v.2)
  {
    PushFlagged(faces, Exposed(inp, v, Right), Exposed(inp, v, Left), Exposed(inp, v, Top),
                Exposed(inp, v, Bottom), Exposed(inp, v, Back), Exposed(inp, v, Front))
  }

  /** The exposed faces of the block at v. */
  function VisibleFaces(inp: RenderInput, v: Voxel): seq<BlockFace>
    requires inp.Valid() && InChunk(v.0, v.1, v.2)
  {
    PushVisible([], inp, v)
  }

  /** Pushing the visible faces adds exactly the exposed faces; onto an
      empty list it lists each of them once. */
  lemma VisibleFacesExact(faces: seq<BlockFace>, inp: RenderInput, v: Voxel)
    requires inp.Valid() && InChunk(v.0, v.1, v.2)
    ensures forall f :: f in PushVisible(faces, inp, v) <==> f in faces || Exposed(inp, v, f)
    ensures Distinct(VisibleFaces(inp, v))
  {
    var right, left, top := Exposed(inp, v, Right), Exposed(inp, v, Left), Exposed(inp, v, Top);
    var bottom, back, front := Exposed(inp, v, Bottom), Exposed(inp, v, Back), Exposed(inp, v, Front);
    forall f
      ensures f in PushVisible(faces, inp, v) <==> f in faces || Exposed(inp, v, f)
    {
      PushFlaggedHas(faces, right, left, top, bottom, back, front, f);
      assert FlagOf(f, right, left, top, bottom, back, front) == Exposed(inp, v, f) by {
        match f
        case Right => {}
        case Left => {}
        case Top => {}
        case Bottom => {}
        case Back => {}
        case Front => {}
      }
    }
    PushFlaggedDistinct(right, left, top, bottom, back, front);
  }

  /** The renderer's own test for face f of the block at v: against the
      block next to it in this chunk, or, on the chunk's border, against the
      facing cell of the neighbouring chunk, which counts as see-through
      when it is missing. */
  predicate RendererTest(inp: RenderInput, v: Voxel, f: BlockFace)
    requires inp.Valid() && InChunk(v.0, v.1, v.2)
  {
    var x, y, z := v.0, v.1, v.2;
    var c, see, nb := inp.chunk, inp.reg.seeThrough, inp.neighbours;
    var last := CHUNK_DIMENSIONS - 1;
    match f
    case Right => (x != last && see(c.BlockAt(x + 1, y, z))) || (x == last && SeeThroughIn(see, nb.right, 0, y, z))
    case Left => (x != 0 && see(c.BlockAt(x - 1, y, z))) || (x == 0 && SeeThroughIn(see, nb.left, last, y, z))
    case Top => (y != last && see(c.BlockAt(x, y + 1, z))) || (y == last && SeeThroughIn(see, nb.top, x, 0, z))
    case Bottom => (y != 0 && see(c.BlockAt(x, y - 1, z))) || (y == 0 && SeeThroughIn(see, nb.bottom, x, last, z))
    case Back => (z != last && see(c.BlockAt(x, y, z + 1))) || (z == last && SeeThroughIn(see, nb.front, x, y, 0))
    case Front => (z != 0 && see(c.BlockAt(x, y, z - 1))) || (z == 0 && SeeThroughIn(see, nb.back, x, y, last))
  }

  /** The renderer's test of a face is exactly exposure. */
  lemma RendererTestIsExposed(inp: RenderInput, v: Voxel, f: BlockFace)
    requires inp.Valid() && InChunk(v.0, v.1, v.2)
    ensures RendererTest(inp, v, f) <==> Exposed(inp, v, f)
  {
  }

  /** Appends to `faces` the faces of the block at v that pass the
      renderer's test, in the order right, left, top, bottom, back, front. */
  method PushExposedFaces(inp: RenderInput, faces: seq<BlockFace>, v: Voxel) returns (r: seq<BlockFace>)
    requires inp.Valid() && InChunk(v.0, v.1, v.2)
    ensures r == PushVisible(faces, inp, v)
  {
    RendererTestIsExposed(inp, v, Right);
    RendererTestIsExposed(inp, v, Left);
    RendererTestIsExposed(inp, v, Top);
    RendererTestIsExposed(inp, v, Bottom);
    RendererTestIsExposed(inp, v, Back);
    RendererTestIsExposed(inp, v, Front);
    r := faces;
    if RendererTest(inp, v, Right) {
      r := r + [Right];
    }
    if RendererTest(inp, v, Left) {
      r := r + [Left];
    }
    if RendererTest(inp, v, Top) {
      r := r + [Top];
    }
    if RendererTest(inp, v, Bottom) {
      r := r + [Bottom];
    }
    if RendererTest(inp, v, Back) {
      r := r + [Back];
    }
    if RendererTest(inp, v, Front) {
      r := r + [Front];
    }
  }

  /** The voxel stored at flat index i: the renderer walks the chunk's
      blocks in storage order. */
  function VoxelOf(i: nat): (v: Voxel)
    requires i < CHUNK_VOLUME
    ensures InChunk(v.0, v.1, v.2) && LocalIndex(v.0, v.1, v.2) == i
  {
    (i % 32, i / 32 % 32, i / 1024)
  }

  /** VoxelOf is the renderer's expand(i, CHUNK_DIMENSIONS,
      CHUNK_DIMENSIONS). */
  lemma VoxelOfIsExpand(i: nat)
    requires i < CHUNK_VOLUME
    ensures VoxelOf(i) == Expand(i, CHUNK_DIMENSIONS, CHUNK_DIMENSIONS)
  {
    var v := VoxelOf(i);
    var e := Expand(i, CHUNK_DIMENSIONS, CHUNK_DIMENSIONS);
    LocalIndexIsFlatten(v.0, v.1, v.2);
    FlattenInjective(v.0, v.1, v.2, e.0, e.1, e.2, CHUNK_DIMENSIONS, CHUNK_DIMENSIONS);
  }

  /** What rendering has produced so far: the faces gathered for the
      current block, the faces handed to the mesh (each with its block) and
      the lights of the light-emitting blocks drawn. */
  datatype RenderState = RenderState(faces: seq<BlockFace>, drawn: seq<(Voxel, BlockFace)>, lights: map<Voxel, LightProperties>)

  /** The block at v is drawn when it is not air and has both a material
      and a mesh. */
  predicate Drawable(inp: RenderInput, v: Voxel)
    requires inp.Valid() && InChunk(v.0, v.1, v.2)
  {
    var b := inp.chunk.BlockAt(v.0, v.1, v.2);
    inp.chunk.HasBlockAt(v.0, v.1, v.2) && inp.reg.hasMaterial(b) && inp.reg.hasMesh(b)
  }

  /** Each face of `faces`, paired with the block at v. */
  function AtVoxel(v: Voxel, faces: seq<BlockFace>): (r: seq<(Voxel, BlockFace)>)
    ensures |r| == |faces|
    ensures forall k | 0 <= k < |r| :: r[k] == (v, faces[k])
  {
    seq(|faces|, k requires 0 <= k < |faces| => (v, faces[k]))
  }

  /** One block of the render loop. A block that is not air gets its
      exposed faces pushed; if there are any, a block without a material or
      a mesh is skipped, and otherwise its faces go to the mesh, the face
      list is cleared and its light, if it has one, is recorded. On a skip
      the face list is kept when `keepSkipped` holds, as the renderer
      does, and cleared otherwise. */
  function Step(inp: RenderInput, st: RenderState, v: Voxel, keepSkipped: bool): RenderState
    requires inp.Valid() && InChunk(v.0, v.1, v.2)
  {
    if !inp.chunk.HasBlockAt(v.0, v.1, v.2) then st
    else
      var faces := PushVisible(st.faces, inp, v);
      var b := inp.chunk.BlockAt(v.0, v.1, v.2);
      if faces == [] then st.(faces := faces)
      else if !inp.reg.hasMaterial(b) || !inp.reg.hasMesh(b) then
        st.(faces := if keepSkipped then faces else [])
      else
        var lights := match inp.reg.lighting(b)
          case Some(light) => st.lights[v := light]
          case None => st.lights;
        RenderState([], st.drawn + AtVoxel(v, faces), lights)
  }

  /** The render loop after the first n blocks in storage order. */
  function Run(inp: RenderInput, n: nat, keepSkipped: bool): RenderState
    requires inp.Valid() && n <= CHUNK_VOLUME
  {
    if n == 0 then RenderState([], [], map[])
    else Step(inp, Run(inp, n - 1, keepSkipped), VoxelOf(n - 1), keepSkipped)
  }

  /** The faces the block at v hands to the mesh when nothing is carried
      over from earlier blocks. */
  function DrawnAt(inp: RenderInput, v: Voxel): seq<(Voxel, BlockFace)>
    requires inp.Valid() && InChunk(v.0, v.1, v.2)
  {
    if Drawable(inp, v) then AtVoxel(v, VisibleFaces(inp, v)) else []
  }

  /** The light the block at v records, when nothing is carried over. */
  function LightAt(inp: RenderInput, v: Voxel): Option<LightProperties>
    requires inp.Valid() && InChunk(v.0, v.1, v.2)
  {
    if Drawable(inp, v) && VisibleFaces(inp, v) != [] then inp.reg.lighting(inp.chunk.BlockAt(v.0, v.1, v.2))
    else None
  }

  function PutLight(lights: map<Voxel, LightProperties>, v: Voxel, light: Option<LightProperties>): map<Voxel, LightProperties>
  {
    match light
    case Some(l) => lights[v := l]
    case None => lights
  }

  /** From an empty face list, a block hands exactly DrawnAt to the mesh,
      records LightAt, and leaves the face list empty. */
  lemma StepCleared(inp: RenderInput, st: RenderState, v: Voxel)
    requires inp.Valid() && InChunk(v.0, v.1, v.2) && st.faces == []
    ensures Step(inp, st, v, false) == RenderState([], st.drawn + DrawnAt(inp, v), PutLight(st.lights, v, LightAt(inp, v)))
  {
  }

  /** A pair is in DrawnAt(v) iff it names v, v is drawable and the face is
      exposed. */
  lemma DrawnAtHas(inp: RenderInput, v: Voxel, q: Voxel, f: BlockFace)
    requires inp.Valid() && InChunk(v.0, v.1, v.2)
    ensures (q, f) in DrawnAt(inp, v) <==> q == v && Drawable(inp, v) && Exposed(inp, v, f)
  {
    VisibleFacesExact([], inp, v);
    if q == v && Drawable(inp, v) && Exposed(inp, v, f) {
      var k :| 0 <= k < |VisibleFaces(inp, v)| && VisibleFaces(inp, v)[k] == f;
      assert DrawnAt(inp, v)[k] == (q, f);
    }
  }

  /** With skipped blocks' faces cleared, the loop never carries faces from
      one block to the next. */
  lemma {:induction false} RunFacesCleared(inp: RenderInput, n: nat)
    requires inp.Valid() && n <= CHUNK_VOLUME
    ensures Run(inp, n, false).faces == []
  {
    if n > 0 {
      RunFacesCleared(inp, n - 1);
      StepCleared(inp, Run(inp, n - 1, false), VoxelOf(n - 1));
    }
  }

  /** So after n blocks the loop has handed to the mesh the DrawnAt of
      each of them and recorded their LightAt. */
  lemma RunCleared(inp: RenderInput, n: nat)
    requires inp.Valid() && 0 < n <= CHUNK_VOLUME
    ensures Run(inp, n, false)
            == RenderState([], Run(inp, n - 1, false).drawn + DrawnAt(inp, VoxelOf(n - 1)),
                           PutLight(Run(inp, n - 1, false).lights, VoxelOf(n - 1), LightAt(inp, VoxelOf(n - 1))))
  {
    RunFacesCleared(inp, n - 1);
    StepCleared(inp, Run(inp, n - 1, false), VoxelOf(n - 1));
  }

  /** Blocks other than v are before index n iff they are before n - 1,
      where v is the block at index n - 1. */
  lemma IndexBefore(n: nat, q: Voxel)
    requires 0 < n <= CHUNK_VOLUME && InChunk(q.0, q.1, q.2) && q != VoxelOf(n - 1)
    ensures LocalIndex(q.0, q.1, q.2) < n <==> LocalIndex(q.0, q.1, q.2) < n - 1
  {
    var v := VoxelOf(n - 1);
    LocalIndexInjective(q.0, q.1, q.2, v.0, v.1, v.2);
  }

  /** Of the blocks before index n, the faces handed to the mesh are
      exactly the exposed faces of the drawable blocks, when a skipped
      block's faces are cleared. */
  lemma {:induction false} RunDraws(inp: RenderInput, n: nat, q: Voxel, f: BlockFace)
    requires inp.Valid() && n <= CHUNK_VOLUME
    ensures (q, f) in Run(inp, n, false).drawn
            <==> InChunk(q.0, q.1, q.2) && LocalIndex(q.0, q.1, q.2) < n && Drawable(inp, q) && Exposed(inp, q, f)
  {
    if n > 0 {
      var v := VoxelOf(n - 1);
      RunCleared(inp, n);
      RunDraws(inp, n - 1, q, f);
      DrawnAtHas(inp, v, q, f);
      if InChunk(q.0, q.1, q.2) && q != v {
        IndexBefore(n, q);
      }
    }
  }

  /** Of the blocks before index n, the lights recorded are exactly those
      of the drawable blocks with an exposed face and a light, each with
      that block's light, when a skipped block's faces are cleared. */
  lemma {:induction false} RunLights(inp: RenderInput, n: nat, q: Voxel)
    requires inp.Valid() && n <= CHUNK_VOLUME
    ensures q in Run(inp, n, false).lights
            <==> InChunk(q.0, q.1, q.2) && LocalIndex(q.0, q.1, q.2) < n && LightAt(inp, q).Some?
    ensures q in Run(inp, n, false).lights ==> Run(inp, n, false).lights[q] == LightAt(inp, q).value
  {
    if n > 0 {
      var v := VoxelOf(n - 1);
      RunCleared(inp, n);
      RunLights(inp, n - 1, q);
      if InChunk(q.0, q.1, q.2) && q != v {
        IndexBefore(n, q);
      }
      RunLightsStep(inp, n, q, v, Run(inp, n - 1, false).lights, Run(inp, n, false).lights);
    }
  }

  /** The step of RunLights: recording the light of the block at index
      n - 1 extends the lights of the blocks before n - 1 to those before
      n. */
  lemma RunLightsStep(inp: RenderInput, n: nat, q: Voxel, v: Voxel,
                      before: map<Voxel, LightProperties>, after: map<Voxel, LightProperties>)
    requires inp.Valid() && 0 < n <= CHUNK_VOLUME && InChunk(v.0, v.1, v.2) && LocalIndex(v.0, v.1, v.2) == n - 1
    requires after == PutLight(before, v, LightAt(inp, v))
    requires q in before <==> InChunk(q.0, q.1, q.2) && LocalIndex(q.0, q.1, q.2) < n - 1 && LightAt(inp, q).Some?
    requires q in before ==> before[q] == LightAt(inp, q).value
    requires InChunk(q.0, q.1, q.2) && q != v ==> (LocalIndex(q.0, q.1, q.2) < n <==> LocalIndex(q.0, q.1, q.2) < n - 1)
    ensures q in after <==> InChunk(q.0, q.1, q.2) && LocalIndex(q.0, q.1, q.2) < n && LightAt(inp, q).Some?
    ensures q in after ==> after[q] == LightAt(inp, q).value
  {
    PutLightHas(before, v, LightAt(inp, v), q);
  }

  /** Recording a light adds its block and changes no other block's light. */
  lemma PutLightHas(lights: map<Voxel, LightProperties>, v: Voxel, light: Option<LightProperties>, q: Voxel)
    ensures q in PutLight(lights, v, light) <==> q in lights || (q == v && light.Some?)
    ensures q in PutLight(lights, v, light) ==>
              PutLight(lights, v, light)[q] == if q == v && light.Some? then light.value else lights[q]
  {
  }

  /** Renders the block at index i: pushes its exposed faces, skips it
      when it lacks a material or a mesh (clearing the face list), and
      otherwise hands its faces to the mesh one by one and records its
      light. */
  method RenderBlock(inp: RenderInput, faces: seq<BlockFace>, drawn: seq<(Voxel, BlockFace)>,
                     lights: map<Voxel, LightProperties>, i: nat)
    returns (faces': seq<BlockFace>, drawn': seq<(Voxel, BlockFace)>, lights': map<Voxel, LightProperties>)
    requires inp.Valid() && i < CHUNK_VOLUME
    ensures RenderState(faces', drawn', lights') == Step(inp, RenderState(faces, drawn, lights), VoxelOf(i), false)
  {
    var v := VoxelOf(i);
    faces', drawn', lights' := faces, drawn, lights;
    if !inp.chunk.HasBlockAt(v.0, v.1, v.2) {
      return;
    }
    var gathered := PushExposedFaces(inp, faces, v);
    faces' := gathered;
    if gathered == [] {
      return;
    }
    var b := inp.chunk.BlockAt(v.0, v.1, v.2);
    if !inp.reg.hasMaterial(b) || !inp.reg.hasMesh(b) {
      faces' := [];
      return;
    }
    for k := 0 to |gathered|
      invariant drawn' == drawn + AtVoxel(v, gathered[..k])
    {
      assert AtVoxel(v, gathered[..k + 1]) == AtVoxel(v, gathered[..k]) + [(v, gathered[k])];
      drawn' := drawn' + [(v, gathered[k])];
    }
    assert gathered[..|gathered|] == gathered;
    faces' := [];
    match inp.reg.lighting(b) {
      case Some(light) => lights' := lights'[v := light];
      case None =>
    }
  }

  /** Renders a chunk: walks its blocks in storage order and returns the
      faces handed to the mesh, each with its block, and the lights of the
      light-emitting blocks drawn. A face is drawn exactly when its block is
      drawable and the face is exposed. */
  method RenderChunk(inp: RenderInput) returns (drawn: seq<(Voxel, BlockFace)>, lights: map<Voxel, LightProperties>)
    requires inp.Valid()
    ensures forall q: Voxel, f :: (q, f) in drawn <==> InChunk(q.0, q.1, q.2) && Drawable(inp, q) && Exposed(inp, q, f)
    ensures forall q: Voxel :: q in lights <==> InChunk(q.0, q.1, q.2) && LightAt(inp, q).Some?
    ensures forall q | q in lights :: InChunk(q.0, q.1, q.2) && lights[q] == LightAt(inp, q).value
  {
    var faces: seq<BlockFace> := [];
    drawn, lights := [], map[];
    for i := 0 to CHUNK_VOLUME
      invariant RenderState(faces, drawn, lights) == Run(inp, i, false)
    {
      faces, drawn, lights := RenderBlock(inp, faces, drawn, lights, i);
    }
    forall q: Voxel, f
      ensures (q, f) in drawn <==> InChunk(q.0, q.1, q.2) && Drawable(inp, q) && Exposed(inp, q, f)
    {
      RunDraws(inp, CHUNK_VOLUME, q, f);
    }
    forall q: Voxel
      ensures q in lights <==> InChunk(q.0, q.1, q.2) && LightAt(inp, q).Some?
      ensures q in lights ==> InChunk(q.0, q.1, q.2) && lights[q] == LightAt(inp, q).value
    {
      RunLights(inp, CHUNK_VOLUME, q);
    }
  }

  /** A chunk with no neighbours holding `blocks`, where only air lets
      light through, block id 1 has no material and every other block has
      a material and a mesh. */
  function CarryOverExample(blocks: seq<BlockId>): (inp: RenderInput)
    requires |blocks| == CHUNK_VOLUME
    ensures inp.Valid()
  {
    var reg := Registries((b: BlockId) => b == AIR_BLOCK_ID, (b: BlockId) => b != 1,
                          (b: BlockId) => true, (b: BlockId) => None);
    RenderInput(Chunk(0, 0, 0, blocks, seq(CHUNK_VOLUME, _ => Top)), Neighbours(None, None, None, None, None, None), reg)
  }

  /** The blocks of the counterexample: block 1 at (1, 0, 0) with air above
      it, block 2 at (2, 0, 0) with block 2 above it. */
  predicate CarryOverBlocks(blocks: seq<BlockId>)
  {
    |blocks| == CHUNK_VOLUME && blocks[1] == 1 && blocks[2] == 2
    && blocks[33] == AIR_BLOCK_ID && blocks[34] == 2
  }

  /** As the renderer is written, an exposed face of a block skipped for
      want of a material or a mesh stays in the face list. */
  lemma SkippedFacesKept(inp: RenderInput, st: RenderState, v: Voxel, f: BlockFace)
    requires inp.Valid() && InChunk(v.0, v.1, v.2) && Exposed(inp, v, f)
    requires inp.chunk.HasBlockAt(v.0, v.1, v.2) && !Drawable(inp, v)
    ensures f in Step(inp, st, v, true).faces
  {
    VisibleFacesExact(st.faces, inp, v);
  }

  /** A face left in the list is drawn at the next drawable block. */
  lemma KeptFacesDrawn(inp: RenderInput, st: RenderState, w: Voxel, f: BlockFace, keepSkipped: bool)
    requires inp.Valid() && InChunk(w.0, w.1, w.2) && Drawable(inp, w) && f in st.faces
    ensures (w, f) in Step(inp, st, w, keepSkipped).drawn
  {
    var gathered := PushVisible(st.faces, inp, w);
    VisibleFacesExact(st.faces, inp, w);
    var k :| 0 <= k < |gathered| && gathered[k] == f;
    assert (st.drawn + AtVoxel(w, gathered))[|st.drawn| + k] == (w, f);
  }

  /** In the counterexample the block at (1, 0, 0) is skipped with its top
      face exposed, and the block at (2, 0, 0) is drawn with its top face
      covered. */
  lemma CarryOverExampleFacts(blocks: seq<BlockId>)
    requires CarryOverBlocks(blocks)
    ensures CarryOverSituation(CarryOverExample(blocks))
  {
    var c := CarryOverExample(blocks).chunk;
    assert c.BlockAt(1, 0, 0) == 1 && c.BlockAt(1, 1, 0) == AIR_BLOCK_ID;
    assert c.BlockAt(2, 0, 0) == 2 && c.BlockAt(2, 1, 0) == 2;
  }

  /** The block stored at index i is the one whose index is i. */
  lemma VoxelOfIndex(i: nat, v: Voxel)
    requires InChunk(v.0, v.1, v.2) && LocalIndex(v.0, v.1, v.2) == i
    ensures VoxelOf(i) == v
  {
    var u := VoxelOf(i);
    if u != v {
      LocalIndexInjective(u.0, u.1, u.2, v.0, v.1, v.2);
    }
  }

  /** The situation the counterexample needs: the block at (1, 0, 0) is
      skipped with its top face exposed, and the block at (2, 0, 0) is
      drawn with its top face covered. CarryOverExampleFacts shows that a
      chunk holding CarryOverBlocks is in it. */
  predicate CarryOverSituation(inp: RenderInput)
    requires inp.Valid()
  {
    && inp.chunk.HasBlockAt(1, 0, 0) && !Drawable(inp, (1, 0, 0)) && Exposed(inp, (1, 0, 0), Top)
    && Drawable(inp, (2, 0, 0)) && !Exposed(inp, (2, 0, 0), Top)
  }

  /** As the renderer is written, a block skipped for want of a material
      leaves its exposed faces in the list for the next block. */
  lemma SkippedFaceCarried(inp: RenderInput, n: nat, f: BlockFace)
    requires inp.Valid() && n < CHUNK_VOLUME
    requires var v := VoxelOf(n); inp.chunk.HasBlockAt(v.0, v.1, v.2) && !Drawable(inp, v) && Exposed(inp, v, f)
    ensures f in Run(inp, n + 1, true).faces
  {
    SkippedFacesKept(inp, Run(inp, n, true), VoxelOf(n), f);
  }

  /** As the renderer is written, a face left in the list is drawn at the
      next drawable block. */
  lemma CarriedFaceDrawn(inp: RenderInput, n: nat, f: BlockFace)
    requires inp.Valid() && n < CHUNK_VOLUME
    requires f in Run(inp, n, true).faces && Drawable(inp, VoxelOf(n))
    ensures (VoxelOf(n), f) in Run(inp, n + 1, true).drawn
  {
    KeptFacesDrawn(inp, Run(inp, n, true), VoxelOf(n), f, true);
  }

  /** As the renderer is written, the faces of a block skipped for want of
      a material are drawn at the next drawn block: in CarryOverSituation,
      the top face of (2, 0, 0) is drawn although the block above it covers
      it. With the face list cleared on a skip it is not drawn. */
  lemma FacesCarryOver(inp: RenderInput)
    requires inp.Valid() && CarryOverSituation(inp)
    ensures ((2, 0, 0), Top) in Run(inp, 3, true).drawn
    ensures !Exposed(inp, (2, 0, 0), Top)
    ensures ((2, 0, 0), Top) !in Run(inp, 3, false).drawn
  {
    VoxelOfIndex(1, (1, 0, 0));
    VoxelOfIndex(2, (2, 0, 0));
    SkippedFaceCarried(inp, 1, Top);
    CarriedFaceDrawn(inp, 2, Top);
    RunDraws(inp, 3, (2, 0, 0), Top);
  }

  /** The counterexample itself: a chunk holding CarryOverBlocks, rendered
      as written, draws the covered top face of (2, 0, 0). */
  lemma CarryOverExampleDrawsCovered(blocks: seq<BlockId>)
    requires CarryOverBlocks(blocks)
    ensures ((2, 0, 0), Top) in Run(CarryOverExample(blocks), 3, true).drawn
    ensures !Exposed(CarryOverExample(blocks), (2, 0, 0), Top)
  {
    CarryOverExampleFacts(blocks);
    FacesCarryOver(CarryOverExample(blocks));
  }
}
