/** The server's chunk lifecycle on planets: answering clients' chunk
    requests, flagging chunks that need to be generated, turning the flags
    into generation requests, and choosing the chunks to generate near
    players and to unload far from them. The state of a chunk (unloaded,
    loading, loaded, invalid) is an abstract function of the structure and
    the chunk's coordinates; it does not change while one system runs. */
module PlanetGenerator {
  import opened Wrappers
  import opened ArrayUtils
  import opened Chunks
  import opened Structures
  import opened GrassBiosphere

  datatype ChunkState = Unloaded | Loading | Loaded | Invalid

  /** Chunk coordinates inside a structure. */
  type Pos = (nat, nat, nat)

  /** The state of chunk p of the structure with the given entity. */
  type StateOf = (Entity, Pos) -> ChunkState

  /** A flag under a planet: chunk `chunkCoords` of the structure needs to
      be generated. */
  datatype NeedsGenerated = NeedsGenerated(chunkCoords: Pos, structureEntity: Entity)

  /** A client asks for chunk `chunkCoords` of a structure. */
  datatype RequestChunkEvent = RequestChunkEvent(requesterId: nat, structureEntity: Entity, chunkCoords: Pos)

  /** A request put off to the next frame. */
  datatype RequestChunkBouncer = RequestChunkBouncer(event: RequestChunkEvent)

  /** The chunk data message sent to a client. */
  datatype ChunkData = ChunkData(requesterId: nat, structureEntity: Entity, chunk: Chunk)

  /** The slot of chunk p in structure s's chunk vector. */
  function Slot(s: Structure, p: Pos): nat
  {
    s.ChunkIndex(p.0, p.1, p.2)
  }

  predicate InGrid(s: Structure, p: Pos)
  {
    s.InChunkBounds(p.0, p.1, p.2)
  }

  /** Distinct chunks of a structure occupy distinct slots, all inside the
      vector. */
  lemma SlotsDistinct(s: Structure, p: Pos, q: Pos)
    requires InGrid(s, p) && InGrid(s, q) && p != q
    ensures Slot(s, p) != Slot(s, q)
    ensures Slot(s, p) < s.width * s.height * s.length
  {
    s.ChunkIndexInRange(p.0, p.1, p.2);
    if Slot(s, p) == Slot(s, q) {
      FlattenInjective(p.0, p.1, p.2, q.0, q.1, q.2, s.width, s.height);
    }
  }

  /** `after` is `before` with a fresh empty chunk in the slot of each
      position in `positions`, and every other slot as it was. */
  ghost predicate EmptiedAt(s: Structure, before: seq<Chunk>, after: seq<Chunk>, positions: set<Pos>)
  {
    && |after| == |before|
    && (forall p | p in positions :: Slot(s, p) < |after| && after[Slot(s, p)] == NewChunk(p.0, p.1, p.2))
    && (forall i | 0 <= i < |after| && (forall p | p in positions :: Slot(s, p) != i) :: after[i] == before[i])
  }

  /** Setting one more in-grid chunk empty. */
  lemma EmptiedAtStep(s: Structure, before: seq<Chunk>, after: seq<Chunk>, positions: set<Pos>, p: Pos)
    requires |before| == s.width * s.height * s.length
    requires forall q | q in positions :: InGrid(s, q)
    requires InGrid(s, p) && EmptiedAt(s, before, after, positions)
    ensures Slot(s, p) < |after|
    ensures EmptiedAt(s, before, after[Slot(s, p) := NewChunk(p.0, p.1, p.2)], positions + {p})
  {
    s.ChunkIndexInRange(p.0, p.1, p.2);
    forall q | q in positions && q != p
      ensures Slot(s, q) != Slot(s, p)
    {
      SlotsDistinct(s, q, p);
    }
  }

  /** A chunk that was not emptied keeps its slot's old contents. */
  lemma EmptiedAtKeeps(s: Structure, before: seq<Chunk>, after: seq<Chunk>, positions: set<Pos>, p: Pos)
    requires |before| == s.width * s.height * s.length
    requires forall q | q in positions :: InGrid(s, q)
    requires InGrid(s, p) && p !in positions && EmptiedAt(s, before, after, positions)
    ensures Slot(s, p) < |after| && after[Slot(s, p)] == before[Slot(s, p)]
  {
    s.ChunkIndexInRange(p.0, p.1, p.2);
    forall q | q in positions
      ensures Slot(s, q) != Slot(s, p)
    {
      SlotsDistinct(s, q, p);
    }
  }

  // ---------------------------------------------------------------------
  // Answering chunk requests

  /** What a request gets: the chunk, a bounce to the next frame, a fresh
      empty chunk plus a generation flag plus a bounce, or nothing. */
  datatype Response = Send(chunk: Chunk) | Bounce | Generate | Ignore

  /** The response to request ev, given the planets' chunk vectors as they
      were before any request of this run was handled. */
  function Respond(ev: RequestChunkEvent, planets: map<Entity, Structure>, chunksOf: map<Entity, seq<Chunk>>, state: StateOf): Response
  {
    var e := ev.structureEntity;
    var p := ev.chunkCoords;
    if e !in planets then Ignore
    else
      match state(e, p)
      case Loaded =>
        if InGrid(planets[e], p) && e in chunksOf && Slot(planets[e], p) < |chunksOf[e]|
        then Send(chunksOf[e][Slot(planets[e], p)]) else Ignore
      case Loading => Bounce
      case Unloaded => Generate
      case Invalid => Ignore
  }

  /** The chunk message a response sends, if any. */
  function SentBy(ev: RequestChunkEvent, r: Response): seq<ChunkData>
  {
    if r.Send? then [ChunkData(ev.requesterId, ev.structureEntity, r.chunk)] else []
  }

  /** The bounce a response emits, if any. */
  function BouncedBy(ev: RequestChunkEvent, r: Response): seq<RequestChunkBouncer>
  {
    if r.Bounce? || r.Generate? then [RequestChunkBouncer(ev)] else []
  }

  /** The generation flag a response raises, if any. */
  function FlaggedBy(ev: RequestChunkEvent, r: Response): seq<NeedsGenerated>
  {
    if r.Generate? then [NeedsGenerated(ev.chunkCoords, ev.structureEntity)] else []
  }

  /** The chunk messages of the requests, in order. */
  function Sent(reqs: seq<RequestChunkEvent>, planets: map<Entity, Structure>, chunksOf: map<Entity, seq<Chunk>>, state: StateOf): seq<ChunkData>
  {
    if reqs == [] then []
    else
      var ev := reqs[|reqs| - 1];
      Sent(reqs[..|reqs| - 1], planets, chunksOf, state) + SentBy(ev, Respond(ev, planets, chunksOf, state))
  }

  /** The requests put off to the next frame, in order. */
  function Bounced(reqs: seq<RequestChunkEvent>, planets: map<Entity, Structure>, chunksOf: map<Entity, seq<Chunk>>, state: StateOf): seq<RequestChunkBouncer>
  {
    if reqs == [] then []
    else
      var ev := reqs[|reqs| - 1];
      Bounced(reqs[..|reqs| - 1], planets, chunksOf, state) + BouncedBy(ev, Respond(ev, planets, chunksOf, state))
  }

  /** The generation flags the requests raise, in order. */
  function Flags(reqs: seq<RequestChunkEvent>, planets: map<Entity, Structure>, chunksOf: map<Entity, seq<Chunk>>, state: StateOf): seq<NeedsGenerated>
  {
    if reqs == [] then []
    else
      var ev := reqs[|reqs| - 1];
      Flags(reqs[..|reqs| - 1], planets, chunksOf, state) + FlaggedBy(ev, Respond(ev, planets, chunksOf, state))
  }

  /** The outputs of the first n + 1 requests extend those of the first n
      by what request n's response produces. */
  lemma OutputsSnoc(reqs: seq<RequestChunkEvent>, n: nat, planets: map<Entity, Structure>, chunksOf: map<Entity, seq<Chunk>>, state: StateOf)
    requires n < |reqs|
    ensures var r := Respond(reqs[n], planets, chunksOf, state);
            && Sent(reqs[..n + 1], planets, chunksOf, state) == Sent(reqs[..n], planets, chunksOf, state) + SentBy(reqs[n], r)
            && Bounced(reqs[..n + 1], planets, chunksOf, state) == Bounced(reqs[..n], planets, chunksOf, state) + BouncedBy(reqs[n], r)
            && Flags(reqs[..n + 1], planets, chunksOf, state) == Flags(reqs[..n], planets, chunksOf, state) + FlaggedBy(reqs[n], r)
  {
    assert reqs[..n + 1][..n] == reqs[..n];
  }

  /** The chunks of structure e that the requests find unloaded. */
  function UnloadedRequested(reqs: seq<RequestChunkEvent>, e: Entity, state: StateOf): set<Pos>
  {
    set i | 0 <= i < |reqs| && reqs[i].structureEntity == e && state(e, reqs[i].chunkCoords) == Unloaded :: reqs[i].chunkCoords
  }

  /** The chunk vectors of the planets. */
  function Snapshot(planets: map<Entity, Structure>): map<Entity, seq<Chunk>>
    reads planets.Values
  {
    map e | e in planets :: planets[e].chunks
  }

  /** Distinct entities are distinct structures. */
  ghost predicate Distinct(planets: map<Entity, Structure>)
  {
    forall e, e' | e in planets && e' in planets && e != e' :: planets[e] != planets[e']
  }

  /** The chunk state of a structure is Unloaded only for chunks inside it. */
  ghost predicate UnloadedInGrid(planets: map<Entity, Structure>, state: StateOf)
  {
    forall e, p | e in planets && state(e, p) == Unloaded :: InGrid(planets[e], p)
  }

  /** Handles this frame's chunk requests: a loaded chunk is sent to the
      requester, a loading one is asked for again next frame, an unloaded
      one is replaced by a fresh empty chunk, flagged for generation and
      asked for again next frame; a request for an invalid chunk or for a
      structure that is not a planet is dropped. */
  method GetRequestedChunk(requests: seq<RequestChunkEvent>, planets: map<Entity, Structure>, state: StateOf)
    returns (sent: seq<ChunkData>, bounced: seq<RequestChunkBouncer>, flags: seq<NeedsGenerated>)
    requires Distinct(planets) && UnloadedInGrid(planets, state)
    requires forall e | e in planets :: planets[e].Valid()
    modifies planets.Values`chunks
    ensures sent == Sent(requests, planets, old(Snapshot(planets)), state)
    ensures bounced == Bounced(requests, planets, old(Snapshot(planets)), state)
    ensures flags == Flags(requests, planets, old(Snapshot(planets)), state)
    ensures forall e | e in planets :: planets[e].Valid()
    ensures forall e | e in planets ::
              EmptiedAt(planets[e], old(planets[e].chunks), planets[e].chunks, UnloadedRequested(requests, e, state))
  {
    sent, bounced, flags := [], [], [];
    ghost var orig := Snapshot(planets);
    for n := 0 to |requests|
      invariant sent == Sent(requests[..n], planets, orig, state)
      invariant bounced == Bounced(requests[..n], planets, orig, state)
      invariant flags == Flags(requests[..n], planets, orig, state)
      invariant forall e | e in planets :: planets[e].Valid()
      invariant forall e | e in planets :: EmptiedAt(planets[e], orig[e], planets[e].chunks, UnloadedRequested(requests[..n], e, state))
    {
      OutputsSnoc(requests, n, planets, orig, state);
      var sentOne, bouncedOne, flagOne := Answer(requests, n, planets, orig, state);
      sent, bounced, flags := sent + sentOne, bounced + bouncedOne, flags + flagOne;
    }
    assert requests[..|requests|] == requests;
  }

  /** Handles request n, the first n having been handled: its response
      comes from the chunks as they were before the run, and the chunk it
      finds unloaded joins the emptied ones. */
  method Answer(requests: seq<RequestChunkEvent>, n: nat, planets: map<Entity, Structure>, ghost orig: map<Entity, seq<Chunk>>, state: StateOf)
    returns (sentOne: seq<ChunkData>, bouncedOne: seq<RequestChunkBouncer>, flagOne: seq<NeedsGenerated>)
    requires n < |requests| && orig.Keys == planets.Keys
    requires Distinct(planets) && UnloadedInGrid(planets, state)
    requires forall e | e in planets :: planets[e].Valid()
    requires forall e | e in planets :: EmptiedAt(planets[e], orig[e], planets[e].chunks, UnloadedRequested(requests[..n], e, state))
    modifies planets.Values`chunks
    ensures sentOne == SentBy(requests[n], Respond(requests[n], planets, orig, state))
    ensures bouncedOne == BouncedBy(requests[n], Respond(requests[n], planets, orig, state))
    ensures flagOne == FlaggedBy(requests[n], Respond(requests[n], planets, orig, state))
    ensures forall e | e in planets :: planets[e].Valid()
    ensures forall e | e in planets :: EmptiedAt(planets[e], orig[e], planets[e].chunks, UnloadedRequested(requests[..n + 1], e, state))
  {
    var ev := requests[n];
    sentOne, bouncedOne, flagOne := [], [], [];
    ghost var r := Respond(ev, planets, orig, state);
    var e, p := ev.structureEntity, ev.chunkCoords;
    if e in planets && state(e, p) == Unloaded {
      var s := planets[e];
      assert r == Generate;
      label Before:
      EmptiedAtStep(s, orig[e], s.chunks, UnloadedRequested(requests[..n], e, state), p);
      s.SetChunk(NewChunk(p.0, p.1, p.2));
      forall e' | e' in planets
        ensures EmptiedAt(planets[e'], orig[e'], planets[e'].chunks, UnloadedRequested(requests[..n + 1], e', state))
      {
        UnloadedRequestedSnoc(requests, n, e', state);
        if e' == e {
          assert UnloadedRequested(requests[..n + 1], e, state) == UnloadedRequested(requests[..n], e, state) + {p};
        } else {
          assert planets[e'] != s;
          assert UnloadedRequested(requests[..n + 1], e', state) == UnloadedRequested(requests[..n], e', state);
          assert planets[e'].chunks == old@Before(planets[e'].chunks);
        }
      }
      flagOne := [NeedsGenerated(p, e)];
      bouncedOne := [RequestChunkBouncer(ev)];
    } else {
      forall e' | e' in planets
        ensures UnloadedRequested(requests[..n + 1], e', state) == UnloadedRequested(requests[..n], e', state)
      {
        UnloadedRequestedSnoc(requests, n, e', state);
      }
      if e in planets && state(e, p) == Loaded && planets[e].InChunkBounds(p.0, p.1, p.2) {
        var s := planets[e];
        s.ChunkIndexInRange(p.0, p.1, p.2);
        EmptiedAtKeeps(s, orig[e], s.chunks, UnloadedRequested(requests[..n], e, state), p);
        var c := s.ChunkFromChunkCoordinates(p.0, p.1, p.2);
        assert r == Send(c);
        sentOne := [ChunkData(ev.requesterId, e, c)];
      } else if e in planets && state(e, p) == Loading {
        assert r == Bounce;
        bouncedOne := [RequestChunkBouncer(ev)];
      } else {
        assert r == Ignore;
      }
    }
  }

  /** The unloaded chunks requested up to one more request. */
  lemma UnloadedRequestedSnoc(reqs: seq<RequestChunkEvent>, n: nat, e: Entity, state: StateOf)
    requires n < |reqs|
    ensures UnloadedRequested(reqs[..n + 1], e, state)
            == UnloadedRequested(reqs[..n], e, state)
               + (if reqs[n].structureEntity == e && state(e, reqs[n].chunkCoords) == Unloaded then {reqs[n].chunkCoords} else {})
  {
    var a, b := reqs[..n + 1], reqs[..n];
    assert forall i | 0 <= i < n :: a[i] == b[i];
  }

  /** A request is asked again next frame exactly when its structure is a
      planet whose chunk is loading or unloaded. */
  predicate Retried(ev: RequestChunkEvent, planets: map<Entity, Structure>, state: StateOf)
  {
    ev.structureEntity in planets
    && (state(ev.structureEntity, ev.chunkCoords) == Loading || state(ev.structureEntity, ev.chunkCoords) == Unloaded)
  }

  /** The bounces are the retried requests. */
  lemma {:induction false} BouncedMembers(reqs: seq<RequestChunkEvent>, planets: map<Entity, Structure>, chunksOf: map<Entity, seq<Chunk>>, state: StateOf, b: RequestChunkBouncer)
    ensures b in Bounced(reqs, planets, chunksOf, state) <==> b.event in reqs && Retried(b.event, planets, state)
  {
    if reqs != [] {
      var init := reqs[..|reqs| - 1];
      BouncedMembers(init, planets, chunksOf, state, b);
      assert reqs == init + [reqs[|reqs| - 1]];
    }
  }

  /** A flag is raised for chunk p of planet e exactly when a request finds
      that chunk unloaded, which is when the chunk is emptied. */
  lemma {:induction false} FlagsMembers(reqs: seq<RequestChunkEvent>, planets: map<Entity, Structure>, chunksOf: map<Entity, seq<Chunk>>, state: StateOf, e: Entity, p: Pos)
    requires e in planets
    ensures NeedsGenerated(p, e) in Flags(reqs, planets, chunksOf, state) <==> p in UnloadedRequested(reqs, e, state)
  {
    if reqs != [] {
      var n := |reqs| - 1;
      FlagsMembers(reqs[..n], planets, chunksOf, state, e, p);
      UnloadedRequestedSnoc(reqs, n, e, state);
      assert reqs[..n + 1] == reqs;
    }
  }

  /** A chunk message answers a request for a loaded chunk of a planet,
      and carries that chunk as it was before the run. */
  lemma {:induction false} SentMembers(reqs: seq<RequestChunkEvent>, planets: map<Entity, Structure>, chunksOf: map<Entity, seq<Chunk>>, state: StateOf, d: ChunkData)
    ensures d in Sent(reqs, planets, chunksOf, state) <==>
            exists i | 0 <= i < |reqs| ::
              var e, p := reqs[i].structureEntity, reqs[i].chunkCoords;
              && e in planets && state(e, p) == Loaded && InGrid(planets[e], p)
              && e in chunksOf && Slot(planets[e], p) < |chunksOf[e]|
              && d == ChunkData(reqs[i].requesterId, e, chunksOf[e][Slot(planets[e], p)])
  {
    if reqs != [] {
      var n := |reqs| - 1;
      SentMembers(reqs[..n], planets, chunksOf, state, d);
      assert forall i | 0 <= i < n :: reqs[..n][i] == reqs[i];
    }
  }

  /** Re-emits each bounced request unchanged, one for one. */
  method BounceEvents(bounced: seq<RequestChunkBouncer>) returns (resent: seq<RequestChunkEvent>)
    ensures |resent| == |bounced|
    ensures forall i | 0 <= i < |bounced| :: resent[i] == bounced[i].event
  {
    resent := [];
    for n := 0 to |bounced|
      invariant |resent| == n
      invariant forall i | 0 <= i < n :: resent[i] == bounced[i].event
    {
      resent := resent + [bounced[n].event];
    }
  }

  // ---------------------------------------------------------------------
  // Turning generation flags into a biosphere's requests

  /** A flag entity: its own entity and the flag it carries. */
  datatype FlagEntity = FlagEntity(entity: Entity, flag: NeedsGenerated)

  /** The flag hangs under a structure carrying the biosphere's marker. */
  predicate Claimed(f: FlagEntity, parent: map<Entity, Entity>, marked: Entity -> bool)
  {
    f.entity in parent && marked(parent[f.entity])
  }

  /** The biosphere's requests for the claimed flags, in flag order. */
  function ClaimedEvents(flags: seq<FlagEntity>, parent: map<Entity, Entity>, marked: Entity -> bool): seq<GrassChunkNeedsGeneratedEvent>
  {
    if flags == [] then []
    else
      var f := flags[|flags| - 1];
      var c := f.flag.chunkCoords;
      ClaimedEvents(flags[..|flags| - 1], parent, marked)
      + (if Claimed(f, parent, marked) then [NewEvent(c.0, c.1, c.2, f.flag.structureEntity)] else [])
  }

  /** Turns every flag under a structure with the marker into one request
      of the biosphere, with the same coordinates and structure, and
      despawns that flag; other flags stay. */
  method CheckNeedsGenerated(flags: seq<FlagEntity>, parent: map<Entity, Entity>, marked: Entity -> bool)
    returns (events: seq<GrassChunkNeedsGeneratedEvent>, despawned: set<Entity>)
    ensures events == ClaimedEvents(flags, parent, marked)
    ensures despawned == set i | 0 <= i < |flags| && Claimed(flags[i], parent, marked) :: flags[i].entity
  {
    events, despawned := [], {};
    for n := 0 to |flags|
      invariant events == ClaimedEvents(flags[..n], parent, marked)
      invariant despawned == set i | 0 <= i < n && Claimed(flags[i], parent, marked) :: flags[i].entity
    {
      var f := flags[n];
      assert flags[..n + 1][..n] == flags[..n];
      if f.entity in parent && marked(parent[f.entity]) {
        var (cx, cy, cz) := f.flag.chunkCoords;
        events := events + [NewEvent(cx, cy, cz, f.flag.structureEntity)];
        despawned := despawned + {f.entity};
      }
    }
    assert flags[..|flags|] == flags;
  }

  /** Each request answers a claimed flag, with its coordinates and
      structure, and each claimed flag has one. */
  lemma {:induction false} ClaimedEventsMembers(flags: seq<FlagEntity>, parent: map<Entity, Entity>, marked: Entity -> bool, ev: GrassChunkNeedsGeneratedEvent)
    ensures ev in ClaimedEvents(flags, parent, marked) <==>
            exists i | 0 <= i < |flags| :: Claimed(flags[i], parent, marked)
              && ev.GetChunkCoordinates() == flags[i].flag.chunkCoords
              && ev.GetStructureEntity() == flags[i].flag.structureEntity
  {
    if flags != [] {
      var n := |flags| - 1;
      ClaimedEventsMembers(flags[..n], parent, marked, ev);
      assert forall i | 0 <= i < n :: flags[..n][i] == flags[i];
    }
  }

  /** When flag entities are distinct, there are as many requests as
      despawned flags. */
  lemma {:induction false} OneEventPerClaimedFlag(flags: seq<FlagEntity>, parent: map<Entity, Entity>, marked: Entity -> bool)
    requires forall i, j | 0 <= i < j < |flags| :: flags[i].entity != flags[j].entity
    ensures |ClaimedEvents(flags, parent, marked)| == |set i | 0 <= i < |flags| && Claimed(flags[i], parent, marked) :: flags[i].entity|
  {
    if flags != [] {
      var n := |flags| - 1;
      OneEventPerClaimedFlag(flags[..n], parent, marked);
      var before := set i | 0 <= i < n && Claimed(flags[..n][i], parent, marked) :: flags[..n][i].entity;
      var after := set i | 0 <= i < |flags| && Claimed(flags[i], parent, marked) :: flags[i].entity;
      if Claimed(flags[n], parent, marked) {
        assert after == before + {flags[n].entity};
        assert flags[n].entity !in before;
      } else {
        assert after == before;
      }
    }
  }

  // ---------------------------------------------------------------------
  // The planet nearest to a player

  /** The distance from a player to a planet. */
  type DistanceOf = (nat, Entity) -> real

  /** The position of a player in the block coordinates of a planet. */
  type LocalPosOf = (nat, Entity) -> (int, int, int)

  /** The index, in query order, of the planet nearest to player pl: a
      later planet replaces the best so far only when strictly nearer. */
  function Nearest(order: seq<Entity>, dist: DistanceOf, pl: nat): (r: Option<nat>)
    ensures r.None? <==> order == []
    ensures r.Some? ==> r.value < |order|
  {
    if order == [] then None
    else
      var last := |order| - 1;
      match Nearest(order[..last], dist, pl)
      case None => Some(last)
      case Some(i) => if dist(pl, order[last]) < dist(pl, order[i]) then Some(last) else Some(i)
  }

  /** The chosen planet is at the smallest distance, and every planet
      before it is strictly farther: the first of equally near planets
      wins. */
  lemma {:induction false} NearestIsFirstMinimum(order: seq<Entity>, dist: DistanceOf, pl: nat)
    requires order != []
    ensures var i := Nearest(order, dist, pl).value;
            && (forall j | 0 <= j < |order| :: dist(pl, order[i]) <= dist(pl, order[j]))
            && (forall j | 0 <= j < i :: dist(pl, order[i]) < dist(pl, order[j]))
  {
    var last := |order| - 1;
    var init := order[..last];
    if init != [] {
      NearestIsFirstMinimum(init, dist, pl);
      assert forall j | 0 <= j < last :: init[j] == order[j];
    }
  }

  /** Scans the planets in query order for the one nearest to player pl. */
  method NearestPlanet(order: seq<Entity>, dist: DistanceOf, pl: nat) returns (best: Option<nat>)
    ensures best == Nearest(order, dist, pl)
  {
    best := None;
    var bestDist: real := 0.0;
    for n := 0 to |order|
      invariant best == Nearest(order[..n], dist, pl)
      invariant best.Some? ==> best.value < n && bestDist == dist(pl, order[best.value])
    {
      assert order[..n + 1][..n] == order[..n];
      var d := dist(pl, order[n]);
      if best.None? || d < bestDist {
        best, bestDist := Some(n), d;
      }
    }
    assert order[..|order|] == order;
  }

  /** The chunk holding block position b, rounding down on every axis. */
  function PlayerChunk(b: (int, int, int)): (c: (int, int, int))
    ensures CHUNK_DIMENSIONS * c.0 <= b.0 < CHUNK_DIMENSIONS * (c.0 + 1)
    ensures CHUNK_DIMENSIONS * c.1 <= b.1 < CHUNK_DIMENSIONS * (c.1 + 1)
    ensures CHUNK_DIMENSIONS * c.2 <= b.2 < CHUNK_DIMENSIONS * (c.2 + 1)
  {
    (b.0 / CHUNK_DIMENSIONS, b.1 / CHUNK_DIMENSIONS, b.2 / CHUNK_DIMENSIONS)
  }

  /** The planet nearest to player pl and the chunk of that planet the
      player is in, if there is a planet. */
  function Target(pl: nat, order: seq<Entity>, dist: DistanceOf, localPos: LocalPosOf): (r: Option<(Entity, (int, int, int))>)
    ensures r.Some? <==> order != []
    ensures r.Some? ==> r.value.0 in order && r.value.1 == PlayerChunk(localPos(pl, r.value.0))
  {
    match Nearest(order, dist, pl)
    case None => None
    case Some(i) => Some((order[i], PlayerChunk(localPos(pl, order[i]))))
  }

  // ---------------------------------------------------------------------
  // Chunk boxes

  /** Every chunk position of structure s. */
  function AllChunks(s: Structure): set<Pos>
  {
    set x: nat, y: nat, z: nat | x < s.width && y < s.height && z < s.length :: (x, y, z)
  }

  /** p lies in the box of radius rd around chunk c, bounds included. */
  predicate InBox(p: Pos, c: (int, int, int), rd: nat)
  {
    c.0 - rd <= p.0 <= c.0 + rd && c.1 - rd <= p.1 <= c.1 + rd && c.2 - rd <= p.2 <= c.2 + rd
  }

  /** The chunks of s in the box of radius rd around c; positions outside
      the structure are skipped. */
  function Box(s: Structure, c: (int, int, int), rd: nat): (r: set<Pos>)
    ensures forall p :: p in r <==> InGrid(s, p) && InBox(p, c, rd)
  {
    assert forall p | InGrid(s, p) :: p in AllChunks(s) by {
      forall p | InGrid(s, p) ensures p in AllChunks(s) {
        var (x, y, z) := p;
        assert (x, y, z) in AllChunks(s);
      }
    }
    set p | p in AllChunks(s) && InBox(p, c, rd)
  }

  /** The chunks to generate around chunk c of planet e: those in the
      radius-2 box that are empty and unloaded. */
  function ToGenerate(s: Structure, chunks: seq<Chunk>, e: Entity, c: (int, int, int), state: StateOf): set<Pos>
  {
    set p | p in Box(s, c, 2) && Slot(s, p) < |chunks| && chunks[Slot(s, p)].IsEmpty() && state(e, p) == Unloaded
  }

  /** The chunks of planet e to generate for player pl: those around the
      player's chunk if e is the player's nearest planet, none otherwise. */
  function Contribution(pl: nat, e: Entity, order: seq<Entity>, planets: map<Entity, Structure>, chunksOf: map<Entity, seq<Chunk>>,
                        dist: DistanceOf, localPos: LocalPosOf, state: StateOf): set<Pos>
  {
    match Target(pl, order, dist, localPos)
    case Some((e', c)) =>
      if e' == e && e in planets && e in chunksOf then ToGenerate(planets[e], chunksOf[e], e, c, state) else {}
    case None => {}
  }

  /** The number of chunks generated for player pl: the size of its share
      of its nearest planet, or none when there is no planet. */
  function ShareSize(pl: nat, order: seq<Entity>, planets: map<Entity, Structure>, chunksOf: map<Entity, seq<Chunk>>,
                     dist: DistanceOf, localPos: LocalPosOf, state: StateOf): nat
  {
    match Target(pl, order, dist, localPos)
    case Some((e, _)) => |Contribution(pl, e, order, planets, chunksOf, dist, localPos, state)|
    case None => 0
  }

  /** The number of flags raised for the players: one per chunk of each
      player's share, so a chunk in the boxes of two players counts twice. */
  function FlagCount(players: seq<nat>, order: seq<Entity>, planets: map<Entity, Structure>, chunksOf: map<Entity, seq<Chunk>>,
                     dist: DistanceOf, localPos: LocalPosOf, state: StateOf): nat
  {
    if players == [] then 0
    else
      var last := |players| - 1;
      FlagCount(players[..last], order, planets, chunksOf, dist, localPos, state)
      + ShareSize(players[last], order, planets, chunksOf, dist, localPos, state)
  }

  /** The chunks of planet e to generate for the players, the chunk
      vectors taken as they were before the run. */
  function Requested(players: seq<nat>, e: Entity, order: seq<Entity>, planets: map<Entity, Structure>, chunksOf: map<Entity, seq<Chunk>>,
                     dist: DistanceOf, localPos: LocalPosOf, state: StateOf): set<Pos>
  {
    if players == [] then {}
    else
      var last := |players| - 1;
      Requested(players[..last], e, order, planets, chunksOf, dist, localPos, state)
      + Contribution(players[last], e, order, planets, chunksOf, dist, localPos, state)
  }

  /** The chunks of planet e kept for player pl: the radius-3 box around
      the player's chunk if e is the player's nearest planet. */
  function Retention(pl: nat, e: Entity, order: seq<Entity>, planets: map<Entity, Structure>, dist: DistanceOf, localPos: LocalPosOf): set<Pos>
  {
    match Target(pl, order, dist, localPos)
    case Some((e', c)) => if e' == e && e in planets then Box(planets[e], c, 3) else {}
    case None => {}
  }

  /** The chunks of planet e kept for the players. */
  function Kept(players: seq<nat>, e: Entity, order: seq<Entity>, planets: map<Entity, Structure>,
                dist: DistanceOf, localPos: LocalPosOf): set<Pos>
  {
    if players == [] then {}
    else
      var last := |players| - 1;
      Kept(players[..last], e, order, planets, dist, localPos) + Retention(players[last], e, order, planets, dist, localPos)
  }

  /** The filled chunks of s. */
  function Filled(s: Structure, chunks: seq<Chunk>): set<Pos>
  {
    set p | p in AllChunks(s) && Slot(s, p) < |chunks| && !chunks[Slot(s, p)].IsEmpty()
  }

  /** A chunk generated near a player lies in that player's retention box:
      radius 3 covers radius 2, so generation never picks a chunk the
      unloading would drop. */
  lemma {:induction false} RequestedAreKept(players: seq<nat>, e: Entity, order: seq<Entity>, planets: map<Entity, Structure>,
                                            chunksOf: map<Entity, seq<Chunk>>, dist: DistanceOf, localPos: LocalPosOf, state: StateOf)
    ensures Requested(players, e, order, planets, chunksOf, dist, localPos, state) <= Kept(players, e, order, planets, dist, localPos)
  {
    if players != [] {
      var last := |players| - 1;
      RequestedAreKept(players[..last], e, order, planets, chunksOf, dist, localPos, state);
    }
  }

  /** Requested for one more player. */
  lemma RequestedSnoc(players: seq<nat>, k: nat, e: Entity, order: seq<Entity>, planets: map<Entity, Structure>,
                      chunksOf: map<Entity, seq<Chunk>>, dist: DistanceOf, localPos: LocalPosOf, state: StateOf)
    requires k < |players|
    ensures Requested(players[..k + 1], e, order, planets, chunksOf, dist, localPos, state)
            == Requested(players[..k], e, order, planets, chunksOf, dist, localPos, state)
               + Contribution(players[k], e, order, planets, chunksOf, dist, localPos, state)
  {
    assert players[..k + 1][..k] == players[..k];
  }

  /** FlagCount for one more player. */
  lemma FlagCountSnoc(players: seq<nat>, k: nat, order: seq<Entity>, planets: map<Entity, Structure>,
                      chunksOf: map<Entity, seq<Chunk>>, dist: DistanceOf, localPos: LocalPosOf, state: StateOf)
    requires k < |players|
    ensures FlagCount(players[..k + 1], order, planets, chunksOf, dist, localPos, state)
            == FlagCount(players[..k], order, planets, chunksOf, dist, localPos, state)
               + ShareSize(players[k], order, planets, chunksOf, dist, localPos, state)
  {
    assert players[..k + 1][..k] == players[..k];
  }

  /** Every chunk requested for generation lies inside its planet and was
      empty before the run. */
  lemma {:induction false} RequestedWereEmpty(players: seq<nat>, e: Entity, order: seq<Entity>, planets: map<Entity, Structure>,
                                              chunksOf: map<Entity, seq<Chunk>>, dist: DistanceOf, localPos: LocalPosOf, state: StateOf, p: Pos)
    requires e in planets && e in chunksOf
    requires p in Requested(players, e, order, planets, chunksOf, dist, localPos, state)
    ensures InGrid(planets[e], p) && Slot(planets[e], p) < |chunksOf[e]| && chunksOf[e][Slot(planets[e], p)].IsEmpty()
  {
    var last := |players| - 1;
    if p in Requested(players[..last], e, order, planets, chunksOf, dist, localPos, state) {
      RequestedWereEmpty(players[..last], e, order, planets, chunksOf, dist, localPos, state, p);
    }
  }

  /** Emptying chunks that were already empty leaves the chunks to
      generate around any point as they were. */
  lemma SameToGenerate(s: Structure, before: seq<Chunk>, after: seq<Chunk>, positions: set<Pos>, e: Entity, c: (int, int, int), state: StateOf)
    requires |before| == s.width * s.height * s.length
    requires EmptiedAt(s, before, after, positions)
    requires forall q | q in positions :: InGrid(s, q) && Slot(s, q) < |before| && before[Slot(s, q)].IsEmpty()
    ensures ToGenerate(s, after, e, c, state) == ToGenerate(s, before, e, c, state)
  {
    forall p | p in Box(s, c, 2)
      ensures Slot(s, p) < |after| && (after[Slot(s, p)].IsEmpty() <==> before[Slot(s, p)].IsEmpty())
    {
      s.ChunkIndexInRange(p.0, p.1, p.2);
      if p !in positions {
        EmptiedAtKeeps(s, before, after, positions, p);
      }
    }
  }

  /** Flags raised for exactly the share of player pl's nearest planet e
      are flags for exactly the player's contribution to every planet. */
  lemma FlagsOfShare(pl: nat, e: Entity, c: (int, int, int), order: seq<Entity>, planets: map<Entity, Structure>,
                     orig: map<Entity, seq<Chunk>>, dist: DistanceOf, localPos: LocalPosOf, state: StateOf,
                     flags: seq<NeedsGenerated>)
    requires Target(pl, order, dist, localPos) == Some((e, c)) && e in planets && e in orig
    requires forall f :: f in flags <==> f.structureEntity == e && f.chunkCoords in ToGenerate(planets[e], orig[e], e, c, state)
    ensures forall f :: f in flags <==>
              f.structureEntity in planets && f.chunkCoords in Contribution(pl, f.structureEntity, order, planets, orig, dist, localPos, state)
  {
    forall f
      ensures f in flags <==>
              f.structureEntity in planets && f.chunkCoords in Contribution(pl, f.structureEntity, order, planets, orig, dist, localPos, state)
    {
      if f.structureEntity != e {
        assert Contribution(pl, f.structureEntity, order, planets, orig, dist, localPos, state) == {};
      }
    }
  }

  /** Replaces chunk p of s by a fresh empty chunk. */
  method EmptyOne(s: Structure, p: Pos, ghost before: seq<Chunk>, ghost positions: set<Pos>)
    requires s.Valid() && |before| == s.width * s.height * s.length
    requires InGrid(s, p) && forall q | q in positions :: InGrid(s, q)
    requires EmptiedAt(s, before, s.chunks, positions)
    modifies s`chunks
    ensures s.Valid() && EmptiedAt(s, before, s.chunks, positions + {p})
  {
    EmptiedAtStep(s, before, s.chunks, positions, p);
    s.SetChunk(NewChunk(p.0, p.1, p.2));
  }

  /** Empties the chunks of `todo` in s, each with a fresh empty chunk, and
      raises one flag for each. */
  method EmptyAll(s: Structure, todo: set<Pos>, e: Entity, ghost before: seq<Chunk>, ghost prior: set<Pos>)
    returns (flags: seq<NeedsGenerated>)
    requires s.Valid() && |before| == s.width * s.height * s.length
    requires forall q | q in prior + todo :: InGrid(s, q)
    requires EmptiedAt(s, before, s.chunks, prior)
    modifies s`chunks
    ensures s.Valid() && EmptiedAt(s, before, s.chunks, prior + todo)
    ensures |flags| == |todo|
    ensures forall f :: f in flags <==> f.structureEntity == e && f.chunkCoords in todo
  {
    flags := [];
    var left := todo;
    while left != {}
      invariant left <= todo
      invariant s.Valid()
      invariant EmptiedAt(s, before, s.chunks, prior + (todo - left))
      invariant |flags| + |left| == |todo|
      invariant forall f :: f in flags <==> f.structureEntity == e && f.chunkCoords in todo && f.chunkCoords !in left
      decreases |left|
    {
      var p :| p in left;
      EmptyOne(s, p, before, prior + (todo - left));
      assert prior + (todo - left) + {p} == prior + (todo - (left - {p}));
      flags := flags + [NeedsGenerated(p, e)];
      left := left - {p};
    }
  }

  /** Generates the chunks near player pl: the empty unloaded chunks in the
      radius-2 box around the player's chunk of its nearest planet are all
      collected first, then each is replaced by a fresh empty chunk and
      gets one flag. `prior` holds the chunks emptied earlier in the run. */
  method GenerateNear(pl: nat, order: seq<Entity>, planets: map<Entity, Structure>, ghost orig: map<Entity, seq<Chunk>>,
                      ghost prior: map<Entity, set<Pos>>, dist: DistanceOf, localPos: LocalPosOf, state: StateOf)
    returns (flags: seq<NeedsGenerated>)
    requires orig.Keys == planets.Keys && prior.Keys == planets.Keys
    requires Distinct(planets) && forall e | e in order :: e in planets
    requires forall e | e in planets :: planets[e].Valid() && |orig[e]| == |planets[e].chunks|
    requires forall e | e in planets :: EmptiedAt(planets[e], orig[e], planets[e].chunks, prior[e])
    requires forall e, q | e in planets && q in prior[e] ::
               InGrid(planets[e], q) && Slot(planets[e], q) < |orig[e]| && orig[e][Slot(planets[e], q)].IsEmpty()
    modifies planets.Values`chunks
    ensures forall e | e in planets :: planets[e].Valid()
    ensures forall e | e in planets ::
              EmptiedAt(planets[e], orig[e], planets[e].chunks, prior[e] + Contribution(pl, e, order, planets, orig, dist, localPos, state))
    ensures forall f :: f in flags <==>
              f.structureEntity in planets && f.chunkCoords in Contribution(pl, f.structureEntity, order, planets, orig, dist, localPos, state)
    ensures |flags| == ShareSize(pl, order, planets, orig, dist, localPos, state)
  {
    flags := [];
    var best := NearestPlanet(order, dist, pl);
    if best.Some? {
      var e := order[best.value];
      var s := planets[e];
      var c := PlayerChunk(localPos(pl, e));
      assert Target(pl, order, dist, localPos) == Some((e, c));
      SameToGenerate(s, orig[e], s.chunks, prior[e], e, c, state);
      var todo := ToGenerate(s, s.chunks, e, c, state);
      flags := EmptyAll(s, todo, e, orig[e], prior[e]);
      forall e' | e' in planets
        ensures planets[e'].Valid()
        ensures EmptiedAt(planets[e'], orig[e'], planets[e'].chunks, prior[e'] + Contribution(pl, e', order, planets, orig, dist, localPos, state))
      {
        if e' == e {
          assert Contribution(pl, e, order, planets, orig, dist, localPos, state) == todo;
        } else {
          assert planets[e'] != s;
          assert Contribution(pl, e', order, planets, orig, dist, localPos, state) == {};
          assert planets[e'].chunks == old(planets[e'].chunks);
        }
      }
      FlagsOfShare(pl, e, c, order, planets, orig, dist, localPos, state, flags);
    } else {
      forall e' | e' in planets
        ensures Contribution(pl, e', order, planets, orig, dist, localPos, state) == {}
      {
      }
    }
  }

  /** Handles player k of a run, the first k having been handled. */
  method GenerateForPlayer(players: seq<nat>, k: nat, order: seq<Entity>, planets: map<Entity, Structure>, ghost orig: map<Entity, seq<Chunk>>,
                           dist: DistanceOf, localPos: LocalPosOf, state: StateOf, ghost flags: seq<NeedsGenerated>)
    returns (more: seq<NeedsGenerated>)
    requires k < |players| && orig.Keys == planets.Keys
    requires Distinct(planets) && forall e | e in order :: e in planets
    requires forall e | e in planets :: planets[e].Valid()
    requires forall e | e in planets ::
               EmptiedAt(planets[e], orig[e], planets[e].chunks, Requested(players[..k], e, order, planets, orig, dist, localPos, state))
    requires forall f :: f in flags <==>
               f.structureEntity in planets
               && f.chunkCoords in Requested(players[..k], f.structureEntity, order, planets, orig, dist, localPos, state)
    requires |flags| == FlagCount(players[..k], order, planets, orig, dist, localPos, state)
    modifies planets.Values`chunks
    ensures forall e | e in planets :: planets[e].Valid()
    ensures forall e | e in planets ::
              EmptiedAt(planets[e], orig[e], planets[e].chunks, Requested(players[..k + 1], e, order, planets, orig, dist, localPos, state))
    ensures forall f :: f in flags + more <==>
              f.structureEntity in planets
              && f.chunkCoords in Requested(players[..k + 1], f.structureEntity, order, planets, orig, dist, localPos, state)
    ensures |flags + more| == FlagCount(players[..k + 1], order, planets, orig, dist, localPos, state)
  {
    ghost var prior := map e | e in planets :: Requested(players[..k], e, order, planets, orig, dist, localPos, state);
    forall e, q | e in planets && q in prior[e]
      ensures InGrid(planets[e], q) && Slot(planets[e], q) < |orig[e]| && orig[e][Slot(planets[e], q)].IsEmpty()
    {
      RequestedWereEmpty(players[..k], e, order, planets, orig, dist, localPos, state, q);
    }
    more := GenerateNear(players[k], order, planets, orig, prior, dist, localPos, state);
    forall e | e in planets
      ensures EmptiedAt(planets[e], orig[e], planets[e].chunks, Requested(players[..k + 1], e, order, planets, orig, dist, localPos, state))
    {
      RequestedSnoc(players, k, e, order, planets, orig, dist, localPos, state);
    }
    forall f
      ensures f in flags + more <==>
              f.structureEntity in planets
              && f.chunkCoords in Requested(players[..k + 1], f.structureEntity, order, planets, orig, dist, localPos, state)
    {
      RequestedSnoc(players, k, f.structureEntity, order, planets, orig, dist, localPos, state);
    }
    FlagCountSnoc(players, k, order, planets, orig, dist, localPos, state);
  }

  /** Generates the chunks near every player in turn. A chunk emptied for
      one player stays empty, so each player's chunks are those it would
      get from the planets as they were before the run. */
  method GenerateChunksNearPlayers(players: seq<nat>, order: seq<Entity>, planets: map<Entity, Structure>,
                                   dist: DistanceOf, localPos: LocalPosOf, state: StateOf)
    returns (flags: seq<NeedsGenerated>)
    requires Distinct(planets) && forall e | e in order :: e in planets
    requires forall e | e in planets :: planets[e].Valid()
    modifies planets.Values`chunks
    ensures forall e | e in planets :: planets[e].Valid()
    ensures forall e | e in planets ::
              EmptiedAt(planets[e], old(planets[e].chunks), planets[e].chunks,
                        Requested(players, e, order, planets, old(Snapshot(planets)), dist, localPos, state))
    ensures forall f :: f in flags <==>
              f.structureEntity in planets
              && f.chunkCoords in Requested(players, f.structureEntity, order, planets, old(Snapshot(planets)), dist, localPos, state)
    ensures |flags| == FlagCount(players, order, planets, old(Snapshot(planets)), dist, localPos, state)
  {
    flags := [];
    ghost var orig := Snapshot(planets);
    for k := 0 to |players|
      invariant forall e | e in planets :: planets[e].Valid()
      invariant forall e | e in planets ::
                  EmptiedAt(planets[e], orig[e], planets[e].chunks, Requested(players[..k], e, order, planets, orig, dist, localPos, state))
      invariant forall f :: f in flags <==>
                  f.structureEntity in planets
                  && f.chunkCoords in Requested(players[..k], f.structureEntity, order, planets, orig, dist, localPos, state)
      invariant |flags| == FlagCount(players[..k], order, planets, orig, dist, localPos, state)
    {
      var more := GenerateForPlayer(players, k, order, planets, orig, dist, localPos, state, flags);
      flags := flags + more;
    }
    assert players[..|players|] == players;
  }

  /** Kept for one more player. */
  lemma KeptSnoc(players: seq<nat>, k: nat, e: Entity, order: seq<Entity>, planets: map<Entity, Structure>,
                 dist: DistanceOf, localPos: LocalPosOf)
    requires k < |players|
    ensures Kept(players[..k + 1], e, order, planets, dist, localPos)
            == Kept(players[..k], e, order, planets, dist, localPos) + Retention(players[k], e, order, planets, dist, localPos)
  {
    assert players[..k + 1][..k] == players[..k];
  }

  /** The chunks to unload from each planet: its filled chunks, less every
      chunk in the radius-3 box around a player for whom it is the nearest
      planet. The unloading itself is not part of this model. */
  method UnloadChunksFarFromPlayers(players: seq<nat>, order: seq<Entity>, planets: map<Entity, Structure>,
                                    dist: DistanceOf, localPos: LocalPosOf)
    returns (unload: map<Entity, set<Pos>>)
    requires forall e | e in order :: e in planets
    ensures unload.Keys == planets.Keys
    ensures forall e | e in planets ::
              unload[e] == Filled(planets[e], planets[e].chunks) - Kept(players, e, order, planets, dist, localPos)
  {
    unload := FilledChunks(planets);
    ghost var filled := unload;
    for k := 0 to |players|
      invariant unload.Keys == planets.Keys
      invariant forall e | e in planets :: unload[e] == filled[e] - Kept(players[..k], e, order, planets, dist, localPos)
    {
      unload := Retain(players, k, order, planets, dist, localPos, unload, filled);
    }
    assert players[..|players|] == players;
  }

  /** The filled chunks of every planet, the candidates for unloading. */
  method FilledChunks(planets: map<Entity, Structure>) returns (filled: map<Entity, set<Pos>>)
    ensures filled.Keys == planets.Keys
    ensures forall e | e in planets :: filled[e] == Filled(planets[e], planets[e].chunks)
  {
    filled := map[];
    var todo := planets.Keys;
    while todo != {}
      invariant todo <= planets.Keys && filled.Keys == planets.Keys - todo
      invariant forall e | e in filled :: filled[e] == Filled(planets[e], planets[e].chunks)
      decreases |todo|
    {
      var e :| e in todo;
      filled := filled[e := Filled(planets[e], planets[e].chunks)];
      todo := todo - {e};
    }
  }

  /** Takes the chunks near player k out of the unload sets, the first k
      players having been handled. */
  method Retain(players: seq<nat>, k: nat, order: seq<Entity>, planets: map<Entity, Structure>, dist: DistanceOf, localPos: LocalPosOf,
                unload: map<Entity, set<Pos>>, ghost filled: map<Entity, set<Pos>>)
    returns (unload': map<Entity, set<Pos>>)
    requires k < |players| && forall e | e in order :: e in planets
    requires unload.Keys == planets.Keys && filled.Keys == planets.Keys
    requires forall e | e in planets :: unload[e] == filled[e] - Kept(players[..k], e, order, planets, dist, localPos)
    ensures unload'.Keys == planets.Keys
    ensures forall e | e in planets :: unload'[e] == filled[e] - Kept(players[..k + 1], e, order, planets, dist, localPos)
  {
    var pl := players[k];
    var best := NearestPlanet(order, dist, pl);
    unload' := unload;
    if best.Some? {
      var e := order[best.value];
      var c := PlayerChunk(localPos(pl, e));
      assert Target(pl, order, dist, localPos) == Some((e, c));
      unload' := unload[e := unload[e] - Box(planets[e], c, 3)];
    }
    forall e | e in planets
      ensures unload'[e] == filled[e] - Kept(players[..k + 1], e, order, planets, dist, localPos)
    {
      KeptSnoc(players, k, e, order, planets, dist, localPos);
    }
  }

  /** No chunk generated for a player is among the chunks unloaded. */
  lemma GeneratedNotUnloaded(players: seq<nat>, e: Entity, order: seq<Entity>, planets: map<Entity, Structure>,
                             chunksOf: map<Entity, seq<Chunk>>, dist: DistanceOf, localPos: LocalPosOf, state: StateOf,
                             filled: set<Pos>)
    ensures Requested(players, e, order, planets, chunksOf, dist, localPos, state)
            !! filled - Kept(players, e, order, planets, dist, localPos)
  {
    RequestedAreKept(players, e, order, planets, chunksOf, dist, localPos, state);
  }
}
