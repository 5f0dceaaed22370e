# Cosmos: structures, planet generation and chunk rendering

Cosmos is a voxel space game. This project models the part of it that deals
with structures made of chunks:

- A structure (a ship, an asteroid, a planet) is a grid of chunks of
  32 x 32 x 32 blocks. Chunks live in a flat vector indexed by `flatten`.
  Each voxel of a chunk holds a block id and the face that points "up".
- A planet is a cube. Each chunk is classified by the set of planet faces
  its eight corners belong to. After a face and its opposite are pruned,
  one face calls for the face fill, two for the edge fill and three for the
  corner fill. Each fill writes blocks from the terrain height of the faces
  involved, with the block for a depth taken from a table of
  (block, threshold) pairs. The grass table is grass, then dirt, then stone.
- The server answers clients' chunk requests. It marks the empty unloaded
  chunks near players for generation. For unloading, it picks each planet's
  filled chunks that are not near any player for whom that planet is the
  nearest one. Generation tasks that have finished are
  merged into their structures.
- The client collects the chunks to re-render after block changes and chunk
  sets. Each frame it sorts the nearest ten chunks to the front and renders
  each chunk's exposed block faces. It then reconciles the chunk's point
  lights with the lights of the previous render.

Imperative code is modelled as methods with loops. Each method is proved
against a specification function or predicate, and the lemmas next to it
state what that function promises. The structure is a `class` whose chunk
vector is a `seq` field. The render queue is sorted in place in an `array`.
The terrain fills run on a chunk value that the loops update one voxel at a
time.

## Model

| member | source | states |
|---|---|---|
| ArrayUtils.Expand | cosmos_core/src/utils/array_utils.rs:10-18 | the expanded coordinate lies inside the row and layer and flattens back to the index |
| ArrayUtils.ExpandFlatten | cosmos_core/src/utils/array_utils.rs:24-31 | expanding the flat index of an in-range coordinate gives the coordinate back |
| ArrayUtils.FlattenInjective | cosmos_core/src/utils/array_utils.rs:5-7 | two in-range coordinates share a flat index only when they are equal |
| ArrayUtils.FlattenBound | cosmos_core/src/utils/array_utils.rs:5-7 | a coordinate inside a width x height x length box flattens below the box's volume |
| ArrayUtils.DivUnique | cosmos_core/src/utils/array_utils.rs:10-18 | a value written as q * d + r with r below d has quotient q and remainder r, which is what makes expand invert flatten |
| Chunks.LocalIndexIsFlatten | cosmos_client/src/rendering/structure_renderer.rs:544-551 | a chunk's storage index of a voxel is `flatten` over the chunk's dimensions, the order the renderer walks in |
| Chunks.LocalIndexInjective | cosmos_core/src/structure/mod.rs:243-252 | distinct voxels of a chunk are stored in distinct slots |
| Chunks.Chunk.SetBlockAtLeavesOthers | cosmos_core/src/structure/mod.rs:247-252 | writing one voxel of a chunk leaves every other voxel's block and rotation as they were |
| Chunks.NewChunk | cosmos_core/src/structure/mod.rs:42-68 | a new chunk is all air, at the given structure coordinates |
| Structures.BlockCoordinateSplit | cosmos_core/src/structure/mod.rs:139-159 | a block coordinate is its chunk coordinate times 32 plus its offset, and lies below n chunks' worth of blocks exactly when its chunk coordinate lies below n |
| Structures.BlockSlotsDistinct | cosmos_core/src/structure/mod.rs:147-155 | two different in-range blocks never share both their chunk slot and their voxel, so writing one leaves the other alone |
| Structures.BlockIterForChunk | cosmos_core/src/structure/mod.rs:315-334 | the inclusive box a chunk's block iterator walks holds exactly the blocks whose chunk coordinate is that chunk's |
| Structures.Structure.constructor | cosmos_core/src/structure/mod.rs:42-68 | a new structure has the given size, one fresh empty chunk in every slot at the slot's own coordinates, no chunk entities, and the given entity |
| Structures.Structure.IsWithinBlocksIff | cosmos_core/src/structure/mod.rs:84-97 | a block is inside the structure's blocks exactly when its chunk is inside the chunk grid |
| Structures.Structure.ChunkFromChunkCoordinates | cosmos_core/src/structure/mod.rs:123-125 | in a structure whose chunks sit in place, the chunk looked up for (cx, cy, cz) has those coordinates |
| Structures.Structure.ChunkAtBlockCoordinates | cosmos_core/src/structure/mod.rs:139-146 | the chunk looked up for a block is the chunk whose coordinates are the block's divided by 32 |
| Structures.Structure.SetBlockAt | cosmos_core/src/structure/mod.rs:222-253 | afterwards the block is there; an unchanged block writes and sends nothing; otherwise only that voxel changes, and an event with the old and new ids is sent exactly when the structure knows its entity and a writer is given |
| Structures.Structure.RemoveBlockAt | cosmos_core/src/structure/mod.rs:204-220 | afterwards the block is air, with the same event rule as placing air |
| Structures.Structure.SetChunk | cosmos_core/src/structure/mod.rs:283-292 | the chunk goes to the slot its own coordinates flatten to, every other slot is kept, and chunks stay in place |
| Structures.Structure.SetChunkEntity | cosmos_core/src/structure/mod.rs:104-111 | a structure without entity slots first gets one empty slot per chunk; then exactly the chunk's slot records the entity |
| Structures.Structure.SetEntity | cosmos_core/src/structure/mod.rs:113-115 | the structure's own entity is recorded |
| BlockRangeTables.BlockRanges.FirstAcceptedIsFirst | cosmos_server/src/structure/planet/biosphere/biosphere_generation.rs:486-493 | the table scan finds the first entry whose threshold is approved, and finds nothing only when no entry is |
| BlockRangeTables.BlockRanges.FaceBlockIsFirstReached | cosmos_server/src/structure/planet/biosphere/biosphere_generation.rs:486-493 | the face lookup succeeds exactly when some threshold is reached, and returns the block of the first such entry; otherwise the source panics |
| BlockRangeTables.BlockRanges.EdgeBlockIsFaceBlockOfMin | cosmos_server/src/structure/planet/biosphere/biosphere_generation.rs:495-502 | the edge lookup equals the face lookup at the smaller of its two depths |
| BlockRangeTables.BlockRanges.CornerBlockIsFaceBlockOfMin | cosmos_server/src/structure/planet/biosphere/biosphere_generation.rs:504-511 | the corner lookup equals the face lookup at the smallest of its three depths |
| BlockRangeTables.BlockRanges.SurfaceEntryNeverPanics | cosmos_server/src/structure/planet/biosphere/biosphere_generation.rs:486-493 | a table holding a zero threshold answers every depth |
| BlockRangeTables.BlockRanges.DescendingLookup | cosmos_server/src/structure/planet/biosphere/biosphere_generation.rs:469-493 | in a table with descending thresholds, a depth gets the entry whose threshold it reaches while the previous entry's it does not |
| Terrain.WithCoordSets | cosmos_server/src/structure/planet/biosphere/biosphere_generation.rs:255-302 | replacing one axis of a voxel sets that axis and leaves the other two |
| Terrain.LatchedSettles | cosmos_server/src/structure/planet/biosphere/biosphere_generation.rs:207-253 | a value updated row by row by a latching step never exceeds its start, never rises, and keeps its value once it has left the start |
| Terrain.TwoFaceCellRule | cosmos_server/src/structure/planet/biosphere/biosphere_generation.rs:255-302 | an edge voxel is skipped exactly when it lies above either top or on both; otherwise it gets the face block of its smaller depth and faces the face whose top it is on |
| Terrain.ThreeFaceCellRule | cosmos_server/src/structure/planet/biosphere/biosphere_generation.rs:423-463 | a corner voxel is skipped exactly when it lies above some top or on two or more; otherwise it gets the face block of its smallest depth and faces the last face, in x, y, z order, whose top it is on |
| Terrain.OrderInjective | cosmos_server/src/structure/planet/biosphere/biosphere_generation.rs:155-306 | distinct iterations of the nested fill loops come at distinct positions of the loop order |
| TerrainFace.FaceVoxel | cosmos_server/src/structure/planet/biosphere/biosphere_generation.rs:136-144 | the voxel iteration (i, j, height) writes lies in the chunk, and the iteration recovered from it is (i, j, height) |
| TerrainFace.FaceIterationCovers | cosmos_server/src/structure/planet/biosphere/biosphere_generation.rs:117-150 | every voxel of the chunk is written by exactly one iteration of the face fill |
| TerrainFace.FaceActualHeight | cosmos_server/src/structure/planet/biosphere/biosphere_generation.rs:136-144 | layer `height`'s actual height is its distance from the opposite face's plane along the face's axis |
| TerrainFace.FaceColumnSolidBelow | cosmos_server/src/structure/planet/biosphere/biosphere_generation.rs:146-149 | a face column is solid from the chunk's bottom to its terrain height: below a filled voxel every voxel is filled, at a greater depth |
| TerrainEdge.EdgeVoxelIteration | cosmos_server/src/structure/planet/biosphere/biosphere_generation.rs:255-302 | iteration (i, j, k) of the edge fill is the one that writes its own voxel |
| TerrainEdge.EdgeIterationCovers | cosmos_server/src/structure/planet/biosphere/biosphere_generation.rs:155-306 | every voxel of the chunk is written by exactly one iteration of the edge fill |
| TerrainEdge.JTopAbove45 | cosmos_server/src/structure/planet/biosphere/biosphere_generation.rs:166-205 | the j face's cached height never falls below the 45-degree plane nor below its own noise height |
| TerrainEdge.Clamp | cosmos_server/src/structure/planet/biosphere/biosphere_generation.rs:240-245 | a non-panicking clamp lands in [lo, hi] and leaves a value already there unchanged |
| TerrainEdge.EdgeTopsCapped | cosmos_server/src/structure/planet/biosphere/biosphere_generation.rs:207-253 | outside a clamp panic, a row's k height lies between its j height and the cap in force, and the capped j height lies at or below the updated cap |
| TerrainEdge.FirstBoth45Next | cosmos_server/src/structure/planet/biosphere/biosphere_generation.rs:207-236 | first_both_45 after a row is that row's update of its value before |
| TerrainEdge.FirstBoth45Settles | cosmos_server/src/structure/planet/biosphere/biosphere_generation.rs:207-236 | first_both_45 never exceeds the planet size, never rises in a slice, and keeps its value once it has been set |
| TerrainEdge.EdgeCellIs | cosmos_server/src/structure/planet/biosphere/biosphere_generation.rs:255-302 | outside a clamp panic, an edge iteration follows the two-face rule on its capped heights |
| TerrainCorner.CornerTopsAbove45 | cosmos_server/src/structure/planet/biosphere/biosphere_generation.rs:320-405 | no face's height falls below the 45-degree planes towards the other two faces, nor below its own noise height |
| TerrainCorner.FirstAll45Next | cosmos_server/src/structure/planet/biosphere/biosphere_generation.rs:384-421 | first_all_45 after a row is that row's update of its value before |
| TerrainCorner.FirstAll45Settles | cosmos_server/src/structure/planet/biosphere/biosphere_generation.rs:384-421 | first_all_45 never exceeds the planet size, never rises in a slice, and keeps its value once it has been set |
| TerrainCorner.CornerTopsCapped | cosmos_server/src/structure/planet/biosphere/biosphere_generation.rs:402-430 | every capped height of a row lies at or below the first_all_45 in force for it |
| TerrainCorner.CornerCellIs | cosmos_server/src/structure/planet/biosphere/biosphere_generation.rs:423-463 | a corner iteration follows the three-face rule on its capped heights |
| FillRun.PanicAborts | cosmos_server/src/structure/planet/biosphere/biosphere_generation.rs:486-493 | a panic in an earlier iteration has aborted the fill |
| FillRun.AbortHasPanic | cosmos_server/src/structure/planet/biosphere/biosphere_generation.rs:486-493 | an aborted fill was aborted by an earlier iteration's panic |
| FillRun.RunVoxel | cosmos_server/src/structure/planet/biosphere/biosphere_generation.rs:107-153 | part-way through the loops, a voxel whose iteration has run holds what that iteration writes, and any other voxel is untouched |
| FillSpec.Fill.IterationCovers | cosmos_server/src/structure/planet/biosphere/biosphere_generation.rs:107-467 | each fill addresses every voxel of the chunk by exactly one iteration |
| FillSpec.PlanForValid | cosmos_server/src/structure/planet/biosphere/biosphere_generation.rs:107-467 | every fill's plan addresses each voxel exactly once |
| FillSpec.FilledNoneIffPanic | cosmos_server/src/structure/planet/biosphere/biosphere_generation.rs:486-511 | a whole fill aborts exactly when one of its iterations panics in a block lookup or a clamp |
| FillSpec.FilledVoxel | cosmos_server/src/structure/planet/biosphere/biosphere_generation.rs:107-467 | when a fill completes, every voxel holds what its own iteration writes |
| FillSpec.AbortedFillPanicked | cosmos_server/src/structure/planet/biosphere/biosphere_generation.rs:486-511 | an aborted fill names an iteration that panics |
| TerrainFill.DoFace | cosmos_server/src/structure/planet/biosphere/biosphere_generation.rs:107-153 | the face fill's loops produce exactly the specified filled chunk, or abort when a lookup panics |
| TerrainFill.FaceVoxelStep | cosmos_server/src/structure/planet/biosphere/biosphere_generation.rs:136-150 | one innermost iteration writes the face block for the voxel's depth when it is at or below the column's top, and nothing otherwise |
| TerrainFill.EdgeHeightCache | cosmos_server/src/structure/planet/biosphere/biosphere_generation.rs:166-205 | each cache entry is the j face's height, kept at or above the 45-degree plane |
| TerrainFill.DoEdge | cosmos_server/src/structure/planet/biosphere/biosphere_generation.rs:155-306 | the edge fill's loops produce exactly the specified filled chunk, or abort on a panic |
| TerrainFill.ClampPanicAborts | cosmos_server/src/structure/planet/biosphere/biosphere_generation.rs:240-245 | a row whose j height exceeds first_both_45 panics in clamp and aborts the whole edge fill |
| TerrainFill.EdgeRowTops | cosmos_server/src/structure/planet/biosphere/biosphere_generation.rs:207-253 | a row computes its clamped k height and the updated first_both_45 |
| TerrainFill.CornerXCache | cosmos_server/src/structure/planet/biosphere/biosphere_generation.rs:320-350 | each entry is the x face's height, kept at or above the y and z 45-degree planes |
| TerrainFill.CornerYCache | cosmos_server/src/structure/planet/biosphere/biosphere_generation.rs:352-382 | each entry is the y face's height, kept at or above the x and z 45-degree planes |
| TerrainFill.DoCorner | cosmos_server/src/structure/planet/biosphere/biosphere_generation.rs:308-467 | the corner fill's loops produce exactly the specified filled chunk, or abort when a lookup panics |
| TerrainFill.CornerRowTops | cosmos_server/src/structure/planet/biosphere/biosphere_generation.rs:384-421 | a row computes its capped z height and the updated first_all_45 |
| Generation.PruneMembership | cosmos_server/src/structure/planet/biosphere/biosphere_generation.rs:612-621 | a face survives pruning exactly when it is present and is positive or has no opposite present |
| Generation.PruneFaces | cosmos_server/src/structure/planet/biosphere/biosphere_generation.rs:612-621 | pruning keeps every positive face, drops a negative face exactly when its opposite is present, and leaves one to three faces, one per axis |
| Generation.PlanetFaces | cosmos_server/src/structure/planet/biosphere/biosphere_generation.rs:595-621 | the classification loops collect the planet faces of the chunk's eight corners and prune them |
| Generation.ChooseFill | cosmos_server/src/structure/planet/biosphere/biosphere_generation.rs:623-677 | one face selects the face fill, two the edge fill, three the corner fill, each given exactly those faces |
| Generation.CornerSetIsAxisFaces | cosmos_server/src/structure/planet/biosphere/biosphere_generation.rs:650-677 | three faces, one per axis, are the x, y and z faces picked by membership |
| Generation.GenerateChunk | cosmos_server/src/structure/planet/biosphere/biosphere_generation.rs:515-685 | a planet lower than five chunks yields nothing; otherwise the chunk is filled by the fill its pruned corner faces select |
| Generation.StoreAllSlot | cosmos_server/src/structure/planet/biosphere/biosphere_generation.rs:71-104 | after merging, a slot holds the last merged chunk that belongs there, or its old chunk when none does |
| Generation.TasksAccounted | cosmos_server/src/structure/planet/biosphere/biosphere_generation.rs:71-104 | every task is either still running, stored with an init event, or dropped, and exactly one of these |
| Generation.StillPendingKeepsOrder | cosmos_server/src/structure/planet/biosphere/biosphere_generation.rs:75-102 | the kept tasks are exactly the running ones, in their original order |
| Generation.InitEventsFromFinished | cosmos_server/src/structure/planet/biosphere/biosphere_generation.rs:80-97 | each init event names an existing structure and the coordinates of a finished chunk of it |
| Generation.NotifyWhenDoneGenerating | cosmos_server/src/structure/planet/biosphere/biosphere_generation.rs:71-104 | running tasks are kept in order; each finished chunk of an existing structure is stored in its slot and announced; each structure's chunks are its old chunks with its finished chunks stored in task order, and nothing but the structures' chunk vectors changes |
| Generation.MergedMembers | cosmos_server/src/structure/planet/biosphere/biosphere_generation.rs:80-97 | every chunk merged into a structure comes from a finished task for that structure |
| GrassBiosphere.NewEvent | cosmos_server/src/structure/planet/biosphere/grass_biosphere.rs:31-50 | the event's getters give back the coordinates and structure it was built from |
| GrassBiosphere.GetGenerateChunkEvent | cosmos_server/src/structure/planet/biosphere/grass_biosphere.rs:59-67 | the biosphere's request carries the chunk's coordinates and structure |
| GrassBiosphere.MakeBlockRanges | cosmos_server/src/structure/planet/biosphere/grass_biosphere.rs:70-94 | the grass table exists exactly when stone, dirt and grass are registered, and then has descending thresholds and a surface entry |
| GrassBiosphere.GrassLayers | cosmos_server/src/structure/planet/biosphere/grass_biosphere.rs:70-94 | on a grass planet the surface is grass, the next four layers dirt and everything deeper stone |
| PlanetGenerator.SlotsDistinct | cosmos_core/src/structure/mod.rs:283-292 | distinct chunks of a structure occupy distinct slots inside its vector |
| PlanetGenerator.GetRequestedChunk | cosmos_server/src/structure/planet/generation/planet_generator.rs:76-127 | a loaded chunk is sent to its requester, a loading one bounced, an unloaded one replaced by an empty chunk, flagged and bounced, an invalid one ignored; the planets' chunks change only in the emptied slots, and nothing else of a planet changes |
| PlanetGenerator.BouncedMembers | cosmos_server/src/structure/planet/generation/planet_generator.rs:97-120 | the bounced requests are exactly the requests for loading or unloaded chunks of planets |
| PlanetGenerator.FlagsMembers | cosmos_server/src/structure/planet/generation/planet_generator.rs:98-117 | a generation flag is raised for a chunk exactly when a request finds it unloaded |
| PlanetGenerator.SentMembers | cosmos_server/src/structure/planet/generation/planet_generator.rs:86-96 | a chunk message answers a request for a loaded chunk of a planet and carries that chunk |
| PlanetGenerator.BounceEvents | cosmos_server/src/structure/planet/generation/planet_generator.rs:66-74 | each bounced request is re-sent unchanged, one for one, in order |
| PlanetGenerator.CheckNeedsGenerated | cosmos_server/src/structure/planet/generation/planet_generator.rs:36-54 | each flag under a structure with the biosphere's marker becomes one request with the flag's coordinates and structure and is despawned; other flags stay |
| PlanetGenerator.ClaimedEventsMembers | cosmos_server/src/structure/planet/generation/planet_generator.rs:43-53 | every request answers a claimed flag, and every claimed flag gets one |
| PlanetGenerator.OneEventPerClaimedFlag | cosmos_server/src/structure/planet/generation/planet_generator.rs:43-53 | with distinct flag entities, there are as many requests as despawned flags |
| PlanetGenerator.NearestIsFirstMinimum | cosmos_server/src/structure/planet/generation/planet_generator.rs:135-143 | the chosen planet is at the smallest distance and every planet before it is strictly farther |
| PlanetGenerator.NearestPlanet | cosmos_server/src/structure/planet/generation/planet_generator.rs:135-143 | the scan returns the first nearest planet, none exactly when there are no planets |
| PlanetGenerator.PlayerChunk | cosmos_server/src/structure/planet/generation/planet_generator.rs:153-157 | the player's chunk holds the player's block position, rounding down on every axis |
| PlanetGenerator.Box | cosmos_server/src/structure/planet/generation/planet_generator.rs:159-165 | the box iterator yields exactly the chunks of the structure within the radius on every axis |
| PlanetGenerator.EmptyAll | cosmos_server/src/structure/planet/generation/planet_generator.rs:180-192 | each collected chunk is replaced by a fresh empty chunk and gets one flag, and nothing else changes |
| PlanetGenerator.GenerateChunksNearPlayers | cosmos_server/src/structure/planet/generation/planet_generator.rs:129-195 | each planet's chunks are emptied exactly at the empty unloaded chunks within radius 2 of a player for whom it is the nearest planet; a flag names exactly such a chunk, and there is one flag per chunk of each player's share, so a chunk shared by two players' boxes is flagged twice; only the planets' chunk vectors change |
| PlanetGenerator.RequestedWereEmpty | cosmos_server/src/structure/planet/generation/planet_generator.rs:168-178 | every chunk chosen for generation lies in its planet and was empty |
| PlanetGenerator.SameToGenerate | cosmos_server/src/structure/planet/generation/planet_generator.rs:180-192 | emptying chunks that were already empty leaves the chunks to generate for later players unchanged |
| PlanetGenerator.FilledChunks | cosmos_server/src/structure/planet/generation/planet_generator.rs:202-213 | each planet starts with exactly its filled chunks as candidates for unloading |
| PlanetGenerator.UnloadChunksFarFromPlayers | cosmos_server/src/structure/planet/generation/planet_generator.rs:197-273 | each planet's chunks to unload are its filled chunks less those within radius 3 of a player for whom it is the nearest planet |
| PlanetGenerator.RequestedAreKept | cosmos_server/src/structure/planet/generation/planet_generator.rs:159-261 | the radius-3 box covers the radius-2 box, so every chunk generated near a player is kept |
| PlanetGenerator.GeneratedNotUnloaded | cosmos_server/src/structure/planet/generation/planet_generator.rs:129-273 | no chunk generated for a player is among the chunks to unload |
| StructureRenderer.NeighbourChunkMarked | cosmos_client/src/rendering/structure_renderer.rs:56-125 | every chunk holding the changed block or one of its six neighbours is marked for re-rendering |
| StructureRenderer.MarkedChunkHasNeighbour | cosmos_client/src/rendering/structure_renderer.rs:56-125 | every chunk marked for a block change holds the block or one of its neighbours |
| StructureRenderer.NeighbourhoodIsAdjacent | cosmos_client/src/rendering/structure_renderer.rs:127-161 | every chunk a chunk set marks lies in the structure at most one step from the set chunk |
| StructureRenderer.AdjacentInNeighbourhood | cosmos_client/src/rendering/structure_renderer.rs:127-161 | every chunk of the structure at most one step from the set chunk is marked |
| StructureRenderer.MarkAllMembers | cosmos_client/src/rendering/structure_renderer.rs:56-161 | a chunk is marked for a structure after the events exactly when it was before or an accepted event of that structure marks it |
| StructureRenderer.MonitorBlockUpdates | cosmos_client/src/rendering/structure_renderer.rs:48-161 | the system fails exactly when a block change's structure is gone; otherwise it returns the block changes' marks with the chunk sets' marks added |
| StructureRenderer.MarksMembers | cosmos_client/src/rendering/structure_renderer.rs:56-161 | a chunk is marked for a structure exactly when a block change or a chunk set of that structure marks it |
| RenderQueue.InView | cosmos_client/src/rendering/structure_renderer.rs:226-239 | the queue holds exactly the candidates nearer than one sector |
| RenderQueue.IndexOfNearest | cosmos_client/src/rendering/structure_renderer.rs:246-255 | the scan finds the first entry of the rest with the smallest distance |
| RenderQueue.SwapNearest | cosmos_client/src/rendering/structure_renderer.rs:243-258 | swapping the nearest remaining entry into the next slot extends the sorted prefix by one |
| RenderQueue.SortNearest | cosmos_client/src/rendering/structure_renderer.rs:241-258 | the array is permuted so that its first min(10, n) entries are in distance order and no farther than any later entry |
| RenderQueue.PrepareQueue | cosmos_client/src/rendering/structure_renderer.rs:226-258 | the queue is a permutation of the in-view chunks with the nearest ten first |
| RenderQueue.BatchIsNearest | cosmos_client/src/rendering/structure_renderer.rs:260-263 | every chunk rendered this frame is in view, nearest first, and no farther than any chunk left for a later frame |
| ChunkRendering.Wrap | cosmos_client/src/rendering/structure_renderer.rs:557-612 | a coordinate one step outside the chunk maps to the facing coordinate of the neighbouring chunk |
| ChunkRendering.PushFlaggedHas | cosmos_client/src/rendering/structure_renderer.rs:557-612 | a face is in the pushed list exactly when it was there before or its flag is set |
| ChunkRendering.PushFlaggedDistinct | cosmos_client/src/rendering/structure_renderer.rs:557-612 | pushed onto an empty list, the flagged faces are listed once each |
| ChunkRendering.VisibleFacesExact | cosmos_client/src/rendering/structure_renderer.rs:557-612 | pushing the visible faces adds exactly the exposed faces, each once |
| ChunkRendering.RendererTestIsExposed | cosmos_client/src/rendering/structure_renderer.rs:557-612 | the renderer's per-face test is exactly exposure: the cell across lets light through or the neighbouring chunk is missing |
| ChunkRendering.PushExposedFaces | cosmos_client/src/rendering/structure_renderer.rs:557-612 | the faces pushed for a block are its visible faces in the order right, left, top, bottom, back, front |
| ChunkRendering.VoxelOfIsExpand | cosmos_client/src/rendering/structure_renderer.rs:544-551 | the voxel the renderer visits at index i is expand(i, 32, 32) |
| ChunkRendering.RunDraws | cosmos_client/src/rendering/structure_renderer.rs:544-676 | with the face list cleared for every block, the faces drawn for the first n blocks are exactly the exposed faces of the drawable ones |
| ChunkRendering.RunLights | cosmos_client/src/rendering/structure_renderer.rs:544-680 | the lights recorded for the first n blocks are exactly those of the drawn light-emitting blocks |
| ChunkRendering.RenderBlock | cosmos_client/src/rendering/structure_renderer.rs:553-680 | rendering one block is one step of the render loop, with the face list cleared for a skipped block |
| ChunkRendering.RenderChunk | cosmos_client/src/rendering/structure_renderer.rs:524-683 | the corrected renderer of the Findings row, which clears the face list for every block: a face is drawn exactly when its block is not air, has a material and a mesh, and the face is exposed; the lights are exactly those of drawn light-emitting blocks |
| ChunkRendering.FacesCarryOver | cosmos_client/src/rendering/structure_renderer.rs:614-676 | as written, a block skipped for want of a material passes its faces to the next drawn block, which then draws a covered face |
| ChunkRendering.CarryOverExampleDrawsCovered | cosmos_client/src/rendering/structure_renderer.rs:614-676 | a concrete chunk in which the renderer as written draws a covered top face |
| ChunkLights.Absorb | cosmos_client/src/rendering/structure_renderer.rs:350-396 | after one light, entries only grow or are re-validated, and a valid entry with the light's position and properties exists |
| ChunkLights.Retained | cosmos_client/src/rendering/structure_renderer.rs:402 | the kept entries are exactly the valid ones |
| ChunkLights.Despawned | cosmos_client/src/rendering/structure_renderer.rs:398-400 | the despawned entities are exactly those of the invalid entries |
| ChunkLights.KeptAreNewLights | cosmos_client/src/rendering/structure_renderer.rs:338-402 | every light kept after a render is one of the chunk's new lights, at its position and with its properties |
| ChunkLights.NewLightsKept | cosmos_client/src/rendering/structure_renderer.rs:338-402 | every new light of the chunk has a kept entry with its position and properties |
| ChunkLights.StaleLightDespawned | cosmos_client/src/rendering/structure_renderer.rs:338-400 | an old light whose position and properties are no longer among the chunk's lights is despawned |
| ChunkLights.UnchangedLightKept | cosmos_client/src/rendering/structure_renderer.rs:350-364 | an unchanged light at the first old entry of its position keeps its entity instead of being spawned again |
| ChunkLights.ChangedLightSpawned | cosmos_client/src/rendering/structure_renderer.rs:366-394 | a light with no equal old entry at its position gets a newly spawned entity |
| ChunkLights.ReplacedLightDespawned | cosmos_client/src/rendering/structure_renderer.rs:350-400 | an old light at the same position with different properties is despawned |
| ChunkLights.Revalidate | cosmos_client/src/rendering/structure_renderer.rs:355-364 | the scan re-validates the first entry at the position when its properties are equal and reports whether it did |
| ChunkLights.InvalidateAll | cosmos_client/src/rendering/structure_renderer.rs:338-346 | the previous render's entries are copied with every entry marked invalid, and there are none without a lights holder |
| ChunkLights.AbsorbLights | cosmos_client/src/rendering/structure_renderer.rs:350-396 | the loop over the render's lights leaves the entries and spawned entities of the specified absorption |
| ChunkLights.CollectDespawned | cosmos_client/src/rendering/structure_renderer.rs:398-400 | the loop collects exactly the entities of the invalid entries, in order |
| ChunkLights.RetainValid | cosmos_client/src/rendering/structure_renderer.rs:402 | the loop keeps exactly the valid entries, in order |
| ChunkLights.ReconcileLights | cosmos_client/src/rendering/structure_renderer.rs:338-402 | the kept entries, spawned entities and despawned entities are those of the specified reconciliation |

## Left out

- Chunk storage: the chunk module is not part of this model. A chunk is a value holding a block id and an "up" face per voxel, stored x fastest, then y, then z. Block id 0 is air.
- Terrain noise: `get_top_height` (OpenSimplex noise in f64) is a function parameter, and so is the planet-face lookup of a block.
- Integer width: usize and i32 arithmetic is unbounded here. The source's usize underflows are guarded instead: a planet lower than five chunks yields no chunk, and the fills assume the planet is a cube of side s_height, as the source does.
- Floating point: distances are `real`. `relative_coords_to_local_coords`, `chunk_relative_position` and `chunk_world_position` are left out, and a player's block position is a parameter.
- Iterator types: the chunk and block iterators are left out. Only the box a chunk's block iterator walks is modelled (`BlockIterForChunk`), and `Box` models `chunk_iter`'s box.
- Iteration order: HashMap and HashSet iteration orders are parameters or sequences, and the order of the planet query is a sequence.
- Engine services: ECS commands, events, entity spawning and despawning, networking and serialization, async tasks and console output are left out. Events are returned as sequences, and spawned light entities come from a `spawn` parameter.
- Marking chunks: inserting the `ChunkNeedsRendered` marker on the marked chunks' entities is left out. `MonitorBlockUpdates` returns the marks.
- Unloading: `unload_chunk_at` itself is left out. `UnloadChunksFarFromPlayers` returns the chunks to unload.
- Mesh building: texture and atlas lookups (and the skip of a face without a texture), `rotate_face`, mesh building, the parallel rendering and old-mesh removal are left out. A drawn face is recorded with its block.
- Biosphere types: the generic biosphere and event types are modelled for the grass biosphere only.
- PlanetGenerator.GetRequestedChunk: the chunk state is a function parameter that stays constant during one run, because `get_chunk_state`, which computes the state, is not modelled.
- ChunkLights.ReconcileLights: spawned light entities are given by a `spawn` parameter indexed by spawn count, so no freshness is stated.
- Structures.Structure: a lookup past the end of the chunk vector panics in the source; here it is excluded by a precondition of each lookup and write.
- Structures.BlockIterForChunk: the source asserts that the chunk coordinates lie inside the grid and panics otherwise; here the assertion is a precondition.
- PlanetGenerator.GenerateChunksNearPlayers: the chunk state is the same constant parameter as for GetRequestedChunk, so a chunk emptied for one player is still Unloaded for the next, and a chunk in two players' boxes is flagged once for each; how the source's chunk state reacts to `set_chunk` is not part of this model.

## Findings

| source | as written | input that shows it | evidently intended | confidence | as-written member | corrected member |
|---|---|---|---|---|---|---|
| cosmos_client/src/rendering/structure_renderer.rs:614-676 | a block without a material or a mesh is skipped by `continue` before `faces.clear()`, so its exposed faces stay in the list and are drawn at the next drawn block | a chunk with no neighbours, block 1 (no material) at (1, 0, 0) with air above it and block 2 at (2, 0, 0) with block 2 above it: the covered top face of (2, 0, 0) is drawn | the face list is cleared for every block, so only exposed faces of drawn blocks are drawn | not executed | ChunkRendering.CarryOverExampleDrawsCovered | ChunkRendering.RenderChunk |
