/** The client's render bookkeeping: which chunks to re-render after block
    and chunk changes, which ten chunks to render first, which faces of a
    block are drawn, and how a chunk's lights are reconciled after it is
    re-rendered. Meshes, materials and the engine's entities are not part
    of this model. */
module StructureRenderer {
  import opened Wrappers
  import opened Chunks
  import opened Structures

  /** Chunk coordinates, or a block position, inside a structure. */
  type Pos = (nat, nat, nat)

  /** A chunk of a structure was set. */
  datatype ChunkSetEvent = ChunkSetEvent(structureEntity: Entity, x: nat, y: nat, z: nat)

  // ---------------------------------------------------------------------
  // Dirty chunks

  function At(x: nat, y: nat, z: nat): Pos
  {
    (x, y, z)
  }

  /** Coordinate a (0 = x, 1 = y, 2 = z) of p. */
  function Coord(p: Pos, a: nat): nat
  {
    if a == 0 then p.0 else if a == 1 then p.1 else p.2
  }

  /** p moved one step along axis a, up or down. */
  function Shift(p: Pos, a: nat, up: bool): (r: Pos)
    requires up || Coord(p, a) > 0
    ensures a < 3 ==> Coord(r, a) == if up then Coord(p, a) + 1 else Coord(p, a) - 1
  {
    var d := if up then 1 else -1;
    if a == 0 then At(p.0 + d, p.1, p.2)
    else if a == 1 then At(p.0, p.1 + d, p.2)
    else At(p.0, p.1, p.2 + d)
  }

  /** p's neighbour below along axis a, if p is not on the grid's lower
      face there. */
  function LowerNeighbour(p: Pos, a: nat): set<Pos>
  {
    if Coord(p, a) != 0 then {Shift(p, a, false)} else {}
  }

  /** p's neighbour above along axis a, if that is still below n. */
  function UpperNeighbour(p: Pos, n: nat, a: nat): set<Pos>
  {
    if Coord(p, a) < n - 1 then {Shift(p, a, true)} else {}
  }

  /** p and each of its six face neighbours inside a w x h x l grid, in
      the order the chunk-set handler tests them (z, then y, then x). */
  function Neighbourhood(p: Pos, w: nat, h: nat, l: nat): set<Pos>
  {
    {p}
    + LowerNeighbour(p, 2) + UpperNeighbour(p, l, 2)
    + LowerNeighbour(p, 1) + UpperNeighbour(p, h, 1)
    + LowerNeighbour(p, 0) + UpperNeighbour(p, w, 0)
  }

  /** The chunk holding block q. */
  function ChunkAt(q: Pos): Pos
  {
    At(ChunkOf(q.0), ChunkOf(q.1), ChunkOf(q.2))
  }

  /** The chunk past the lower face of b's chunk along axis a, when b lies
      on that face and is not the structure's first block along a. */
  function LowerCrossing(b: Pos, a: nat): set<Pos>
  {
    var v := Coord(b, a);
    if v != 0 && v % CHUNK_DIMENSIONS == 0 then
      assert Coord(ChunkAt(b), a) > 0 by { ChunkOfPred(v); if a == 0 {} else if a == 1 {} else {} }
      {Shift(ChunkAt(b), a, false)}
    else {}
  }

  /** The chunk past the upper face of b's chunk along axis a, when b lies
      on that face and is not the structure's last block (of n) along a. */
  function UpperCrossing(b: Pos, n: nat, a: nat): set<Pos>
  {
    var v := Coord(b, a);
    if v != n - 1 && (v + 1) % CHUNK_DIMENSIONS == 0 then {Shift(ChunkAt(b), a, true)} else {}
  }

  /** The chunks to re-render after block b changed, in a structure of
      bw x bh x bl blocks: the chunk across each face of b's chunk that b
      touches, unless b is at the structure's edge there, and b's own
      chunk, in the order the source tests them. */
  function BlockDirty(b: Pos, bw: nat, bh: nat, bl: nat): set<Pos>
  {
    LowerCrossing(b, 0) + UpperCrossing(b, bw, 0)
    + LowerCrossing(b, 1) + UpperCrossing(b, bh, 1)
    + LowerCrossing(b, 2) + UpperCrossing(b, bl, 2)
    + {ChunkAt(b)}
  }

  /** The chunk of the block before v: one chunk lower exactly when v
      starts its chunk. */
  lemma ChunkOfPred(v: nat)
    requires v > 0
    ensures ChunkOf(v - 1) == if v % CHUNK_DIMENSIONS == 0 then ChunkOf(v) - 1 else ChunkOf(v)
  {
    BlockCoordinateSplit(v, 0);
    BlockCoordinateSplit(v - 1, 0);
  }

  /** The chunk of the block after v: one chunk higher exactly when v ends
      its chunk. */
  lemma ChunkOfSucc(v: nat)
    ensures ChunkOf(v + 1) == if (v + 1) % CHUNK_DIMENSIONS == 0 then ChunkOf(v) + 1 else ChunkOf(v)
  {
    BlockCoordinateSplit(v, 0);
    BlockCoordinateSplit(v + 1, 0);
  }

  /** The chunk of b's lower neighbour along a is b's own chunk or the one
      LowerCrossing marks. */
  lemma LowerNeighbourMarked(b: Pos, a: nat)
    requires a < 3 && Coord(b, a) != 0
    ensures ChunkAt(Shift(b, a, false)) in LowerCrossing(b, a) + {ChunkAt(b)}
  {
    ChunkOfPred(Coord(b, a));
  }

  /** The chunk of b's upper neighbour along a, inside n blocks, is b's own
      chunk or the one UpperCrossing marks. */
  lemma UpperNeighbourMarked(b: Pos, n: nat, a: nat)
    requires a < 3 && Coord(b, a) < n - 1
    ensures ChunkAt(Shift(b, a, true)) in UpperCrossing(b, n, a) + {ChunkAt(b)}
  {
    ChunkOfSucc(Coord(b, a));
  }

  /** Every chunk holding the changed block or one of its neighbours is
      marked: no mesh that shows the block is left stale. */
  lemma NeighbourChunkMarked(b: Pos, bw: nat, bh: nat, bl: nat, q: Pos)
    requires q in Neighbourhood(b, bw, bh, bl)
    ensures ChunkAt(q) in BlockDirty(b, bw, bh, bl)
  {
    if q in LowerNeighbour(b, 0) {
      LowerNeighbourMarked(b, 0);
    } else if q in UpperNeighbour(b, bw, 0) {
      UpperNeighbourMarked(b, bw, 0);
    } else if q in LowerNeighbour(b, 1) {
      LowerNeighbourMarked(b, 1);
    } else if q in UpperNeighbour(b, bh, 1) {
      UpperNeighbourMarked(b, bh, 1);
    } else if q in LowerNeighbour(b, 2) {
      LowerNeighbourMarked(b, 2);
    } else if q in UpperNeighbour(b, bl, 2) {
      UpperNeighbourMarked(b, bl, 2);
    }
  }

  /** A chunk LowerCrossing marks holds b's lower neighbour along a. */
  lemma LowerCrossingReached(b: Pos, a: nat, p: Pos)
    requires a < 3 && p in LowerCrossing(b, a)
    ensures Coord(b, a) != 0 && ChunkAt(Shift(b, a, false)) == p
  {
    ChunkOfPred(Coord(b, a));
  }

  /** A chunk UpperCrossing marks holds b's upper neighbour along a, which
      lies inside the structure when b does. */
  lemma UpperCrossingReached(b: Pos, n: nat, a: nat, p: Pos)
    requires a < 3 && p in UpperCrossing(b, n, a) && Coord(b, a) < n
    ensures Coord(b, a) < n - 1 && ChunkAt(Shift(b, a, true)) == p
  {
    ChunkOfSucc(Coord(b, a));
  }

  /** Every marked chunk holds the changed block or one of its neighbours:
      nothing else is re-rendered. */
  lemma MarkedChunkHasNeighbour(b: Pos, bw: nat, bh: nat, bl: nat, p: Pos)
    requires b.0 < bw && b.1 < bh && b.2 < bl
    requires p in BlockDirty(b, bw, bh, bl)
    ensures exists q :: q in Neighbourhood(b, bw, bh, bl) && ChunkAt(q) == p
  {
    var q := b;
    if p in LowerCrossing(b, 0) {
      LowerCrossingReached(b, 0, p);
      q := Shift(b, 0, false);
    } else if p in UpperCrossing(b, bw, 0) {
      UpperCrossingReached(b, bw, 0, p);
      q := Shift(b, 0, true);
    } else if p in LowerCrossing(b, 1) {
      LowerCrossingReached(b, 1, p);
      q := Shift(b, 1, false);
    } else if p in UpperCrossing(b, bh, 1) {
      UpperCrossingReached(b, bh, 1, p);
      q := Shift(b, 1, true);
    } else if p in LowerCrossing(b, 2) {
      LowerCrossingReached(b, 2, p);
      q := Shift(b, 2, false);
    } else if p in UpperCrossing(b, bl, 2) {
      UpperCrossingReached(b, bl, 2, p);
      q := Shift(b, 2, true);
    }
    assert q in Neighbourhood(b, bw, bh, bl) && ChunkAt(q) == p;
  }

  /** Distance between two chunk positions, counted in steps along the axes. */
  function Steps(p: Pos, q: Pos): nat
  {
    (if p.0 < q.0 then q.0 - p.0 else p.0 - q.0)
    + (if p.1 < q.1 then q.1 - p.1 else p.1 - q.1)
    + (if p.2 < q.2 then q.2 - p.2 else p.2 - q.2)
  }

  /** Every chunk a chunk set marks lies in the structure, at most one step
      from the set chunk. */
  lemma NeighbourhoodIsAdjacent(c: Pos, w: nat, h: nat, l: nat, q: Pos)
    requires c.0 < w && c.1 < h && c.2 < l
    requires q in Neighbourhood(c, w, h, l)
    ensures q.0 < w && q.1 < h && q.2 < l && Steps(c, q) <= 1
  {
    if q in LowerNeighbour(c, 2) {
      assert q == Shift(c, 2, false);
    } else if q in UpperNeighbour(c, l, 2) {
      assert q == Shift(c, 2, true);
    } else if q in LowerNeighbour(c, 1) {
      assert q == Shift(c, 1, false);
    } else if q in UpperNeighbour(c, h, 1) {
      assert q == Shift(c, 1, true);
    } else if q in LowerNeighbour(c, 0) {
      assert q == Shift(c, 0, false);
    } else if q in UpperNeighbour(c, w, 0) {
      assert q == Shift(c, 0, true);
    }
  }

  /** Every chunk of the structure at most one step from the set chunk is
      marked. */
  lemma AdjacentInNeighbourhood(c: Pos, w: nat, h: nat, l: nat, q: Pos)
    requires q.0 < w && q.1 < h && q.2 < l && Steps(c, q) <= 1
    ensures q in Neighbourhood(c, w, h, l)
  {
    var (x, y, z) := c;
    if q.0 < x {
      assert q == Shift(c, 0, false);
    } else if q.0 > x {
      assert q == Shift(c, 0, true);
    } else if q.1 < y {
      assert q == Shift(c, 1, false);
    } else if q.1 > y {
      assert q == Shift(c, 1, true);
    } else if q.2 < z {
      assert q == Shift(c, 2, false);
    } else if q.2 > z {
      assert q == Shift(c, 2, true);
    }
  }

  /** Adds chunks ps to the chunks to re-render of structure e. */
  function Mark(m: map<Entity, set<Pos>>, e: Entity, ps: set<Pos>): map<Entity, set<Pos>>
  {
    m[e := (if e in m then m[e] else {}) + ps]
  }

  /** m with, for each event in turn that `keep` accepts, the chunks
      `dirty` gives for it added to the structure `owner` names. */
  function MarkAll<E>(m: map<Entity, set<Pos>>, events: seq<E>, owner: E -> Entity, dirty: E -> set<Pos>, keep: E -> bool)
    : map<Entity, set<Pos>>
  {
    if events == [] then m
    else
      var m' := MarkAll(m, events[..|events| - 1], owner, dirty, keep);
      var ev := events[|events| - 1];
      if keep(ev) then Mark(m', owner(ev), dirty(ev)) else m'
  }

  /** Marking one more event. */
  lemma MarkAllSnoc<E>(m: map<Entity, set<Pos>>, events: seq<E>, ev: E, owner: E -> Entity, dirty: E -> set<Pos>, keep: E -> bool)
    ensures MarkAll(m, events + [ev], owner, dirty, keep)
            == if keep(ev) then Mark(MarkAll(m, events, owner, dirty, keep), owner(ev), dirty(ev))
               else MarkAll(m, events, owner, dirty, keep)
  {
    assert (events + [ev])[..|events|] == events;
  }

  /** A chunk is marked for structure e after the events exactly when it
      was before, or an accepted event of e marks it. */
  lemma {:induction false} MarkAllMembers<E>(m: map<Entity, set<Pos>>, events: seq<E>, owner: E -> Entity, dirty: E -> set<Pos>,
                                             keep: E -> bool, e: Entity, p: Pos)
    ensures var r := MarkAll(m, events, owner, dirty, keep);
            e in r && p in r[e]
            <==> (e in m && p in m[e])
                 || exists i | 0 <= i < |events| :: keep(events[i]) && owner(events[i]) == e && p in dirty(events[i])
  {
    if events != [] {
      var n := |events| - 1;
      var prefix := events[..n];
      MarkAllMembers(m, prefix, owner, dirty, keep, e, p);
      assert forall i | 0 <= i < n :: prefix[i] == events[i];
    }
  }

  /** The structure a block change is in. */
  function BlockOwner(ev: BlockChangedEvent): Entity
  {
    ev.structureEntity
  }

  /** The structure a chunk set is in. */
  function ChunkSetOwner(ev: ChunkSetEvent): Entity
  {
    ev.structureEntity
  }

  /** A block change's marks, in its own structure; none when it is gone. */
  function BlockDirtyOf(ev: BlockChangedEvent, structures: map<Entity, Structure>): set<Pos>
  {
    if ev.structureEntity in structures then
      var s := structures[ev.structureEntity];
      BlockDirty(ev.block, s.width * CHUNK_DIMENSIONS, s.height * CHUNK_DIMENSIONS, s.length * CHUNK_DIMENSIONS)
    else {}
  }

  /** A chunk set's marks, in its own structure; none when it is gone. */
  function ChunkSetDirtyOf(ev: ChunkSetEvent, structures: map<Entity, Structure>): set<Pos>
  {
    if ev.structureEntity in structures then
      var s := structures[ev.structureEntity];
      Neighbourhood(At(ev.x, ev.y, ev.z), s.width, s.height, s.length)
    else {}
  }

  function BlockDirtyFn(structures: map<Entity, Structure>): BlockChangedEvent -> set<Pos>
  {
    (ev: BlockChangedEvent) => BlockDirtyOf(ev, structures)
  }

  function ChunkSetDirtyFn(structures: map<Entity, Structure>): ChunkSetEvent -> set<Pos>
  {
    (ev: ChunkSetEvent) => ChunkSetDirtyOf(ev, structures)
  }

  /** Every block change is marked. */
  function AllBlockChanges(): BlockChangedEvent -> bool
  {
    (ev: BlockChangedEvent) => true
  }

  /** Whether a chunk set's structure still exists. */
  function ChunkSetKept(structures: map<Entity, Structure>): ChunkSetEvent -> bool
  {
    (ev: ChunkSetEvent) => ev.structureEntity in structures
  }

  /** The chunks the block changes mark, by structure. */
  function BlockMarks(events: seq<BlockChangedEvent>, structures: map<Entity, Structure>): map<Entity, set<Pos>>
  {
    MarkAll(map[], events, BlockOwner, BlockDirtyFn(structures), AllBlockChanges())
  }

  /** m with the chunks the chunk sets mark added; a chunk set for a
      structure that is gone is skipped. */
  function SetMarks(m: map<Entity, set<Pos>>, events: seq<ChunkSetEvent>, structures: map<Entity, Structure>): map<Entity, set<Pos>>
  {
    MarkAll(m, events, ChunkSetOwner, ChunkSetDirtyFn(structures), ChunkSetKept(structures))
  }

  /** Collects the chunks to re-render: for each block change the chunks
      that can show the block, for each chunk set the chunk and its
      neighbours. A block change on a structure that is gone is fatal
      (None). */
  method MonitorBlockUpdates(blockEvents: seq<BlockChangedEvent>, setEvents: seq<ChunkSetEvent>, structures: map<Entity, Structure>)
    returns (r: Option<map<Entity, set<Pos>>>)
    ensures r.None? <==> exists i | 0 <= i < |blockEvents| :: blockEvents[i].structureEntity !in structures
    ensures r.Some? ==> r.value == SetMarks(BlockMarks(blockEvents, structures), setEvents, structures)
  {
    var blockMarks := CollectBlockMarks(blockEvents, structures);
    if blockMarks.None? {
      return None;
    }
    var todo := CollectChunkSetMarks(blockMarks.value, setEvents, structures);
    return Some(todo);
  }

  /** The block-change loop: the marks of all block changes, or None at
      the first change whose structure is gone. */
  method CollectBlockMarks(blockEvents: seq<BlockChangedEvent>, structures: map<Entity, Structure>)
    returns (r: Option<map<Entity, set<Pos>>>)
    ensures r.None? <==> exists i | 0 <= i < |blockEvents| :: blockEvents[i].structureEntity !in structures
    ensures r.Some? ==> r.value == BlockMarks(blockEvents, structures)
  {
    var todo: map<Entity, set<Pos>> := map[];
    for n := 0 to |blockEvents|
      invariant forall i | 0 <= i < n :: blockEvents[i].structureEntity in structures
      invariant todo == BlockMarks(blockEvents[..n], structures)
    {
      if blockEvents[n].structureEntity !in structures {
        return None;
      }
      todo := MarkBlockChange(todo, blockEvents, n, structures);
    }
    assert blockEvents[..|blockEvents|] == blockEvents;
    return Some(todo);
  }

  /** The chunk-set loop: todo with the marks of all chunk sets added. */
  method CollectChunkSetMarks(todo: map<Entity, set<Pos>>, setEvents: seq<ChunkSetEvent>, structures: map<Entity, Structure>)
    returns (r: map<Entity, set<Pos>>)
    ensures r == SetMarks(todo, setEvents, structures)
  {
    r := todo;
    for n := 0 to |setEvents|
      invariant r == SetMarks(todo, setEvents[..n], structures)
    {
      r := MarkChunkSet(r, todo, setEvents, n, structures);
    }
    assert setEvents[..|setEvents|] == setEvents;
  }

  /** One pass of the block-change loop: the marks of the first n changes
      become the marks of the first n + 1. */
  method MarkBlockChange(todo: map<Entity, set<Pos>>, events: seq<BlockChangedEvent>, n: nat, structures: map<Entity, Structure>)
    returns (todo': map<Entity, set<Pos>>)
    requires n < |events| && events[n].structureEntity in structures
    requires forall i | 0 <= i < n :: events[i].structureEntity in structures
    requires todo == BlockMarks(events[..n], structures)
    ensures forall i | 0 <= i < n + 1 :: events[i].structureEntity in structures
    ensures todo' == BlockMarks(events[..n + 1], structures)
  {
    var ev := events[n];
    assert events[..n + 1] == events[..n] + [ev];
    MarkAllSnoc(map[], events[..n], ev, BlockOwner, BlockDirtyFn(structures), AllBlockChanges());
    todo' := Mark(todo, ev.structureEntity, BlockDirtyOf(ev, structures));
  }

  /** One pass of the chunk-set loop: the marks after the first n chunk
      sets become the marks after the first n + 1; a chunk set whose
      structure is gone changes nothing. */
  method MarkChunkSet(todo: map<Entity, set<Pos>>, ghost start: map<Entity, set<Pos>>, events: seq<ChunkSetEvent>, n: nat,
                      structures: map<Entity, Structure>)
    returns (todo': map<Entity, set<Pos>>)
    requires n < |events| && todo == SetMarks(start, events[..n], structures)
    ensures todo' == SetMarks(start, events[..n + 1], structures)
  {
    var ev := events[n];
    assert events[..n + 1] == events[..n] + [ev];
    MarkAllSnoc(start, events[..n], ev, ChunkSetOwner, ChunkSetDirtyFn(structures), ChunkSetKept(structures));
    todo' := todo;
    if ev.structureEntity in structures {
      todo' := Mark(todo, ev.structureEntity, ChunkSetDirtyOf(ev, structures));
    }
  }

  /** A chunk is marked for structure e exactly when a block change of e
      or a chunk set of e marks it. */
  lemma MarksMembers(blockEvents: seq<BlockChangedEvent>, setEvents: seq<ChunkSetEvent>, structures: map<Entity, Structure>,
                     e: Entity, p: Pos)
    requires forall i | 0 <= i < |blockEvents| :: blockEvents[i].structureEntity in structures
    ensures var m := SetMarks(BlockMarks(blockEvents, structures), setEvents, structures);
            e in m && p in m[e] <==>
              (exists i | 0 <= i < |blockEvents| :: blockEvents[i].structureEntity == e && p in BlockDirtyOf(blockEvents[i], structures))
              || (exists i | 0 <= i < |setEvents| :: setEvents[i].structureEntity == e && p in ChunkSetDirtyOf(setEvents[i], structures))
  {
    MarkAllMembers(map[], blockEvents, BlockOwner, BlockDirtyFn(structures), AllBlockChanges(), e, p);
    MarkAllMembers(BlockMarks(blockEvents, structures), setEvents, ChunkSetOwner, ChunkSetDirtyFn(structures),
                   ChunkSetKept(structures), e, p);
  }
}
