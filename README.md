# A voxel game's core logic, modelled in Dafny

The game is a browser voxel sandbox written in one JavaScript file, `game.js`. Its logic
sits in five small pieces, and this project models each of them:

- **Chunk streaming** (`loadChunks`). Once per frame the game works out the camera's chunk
  as `floor(x / 16)`. It visits the 5×5 window of chunk keys around that chunk. For each key
  not yet in `loadedChunks` it creates a chunk, pushes it onto `chunks` and records the key.
  It then walks the whole `chunks` list. It deletes the key of every chunk whose corner is
  more than 48 world units from the camera on x or on z.
- **Chunk generation** (`createChunk`). A triple loop emits one block for each cell of a
  16×16×16 grid. The block's position is set to the cell's offset position
  (x + xo·16, y, z + zo·16), relative to its chunk's group. It is stone, dirt or grass,
  depending on the column height `max(noise * 10, 2)`.
- **Inventory** (`addItemToInventory`, `selectItem`). The inventory is a list of at most ten
  item identifiers that only grows. A lookup returns nothing when the index is out of range.
- **Game mode** (`GameMode`, `switchMode`). There are four modes. The game starts in
  Survival, and every switch overwrites the mode.
- **Click placement**. The click handler takes the filtered ray hits, the first inventory
  slot and the current mode. In Creative mode, with a hit and an item, it adds one block of
  that item's texture at the first hit point. Otherwise it does nothing.

Files, one module each:

- `terrain.dfy` (`Terrain`): materials, blocks, the column rule and `CreateChunk` with its
  triple loop.
- `inventory.dfy` (`Inventory`): the item table and the `Inventory` class.
- `modes.dfy` (`Modes`): `GameMode` and the `ModeState` class.
- `streaming.dfy` (`Streaming`): the `ChunkStreamer` class, the functions `NextChunks`
  and `NextLoaded` that specify one reconciliation, and the lemmas about them.
- `interaction.dfy` (`Interaction`): the placement rule and the `Scene` class's `Click`.

Modelling choices:

- Camera coordinates are `real`, and `Math.floor` is `.Floor`.
- The noise function is a parameter of type `(int, int) -> real`. Where a property needs
  the game's bound on noise (a sine–cosine product lies in [-1, 1]), it is a precondition.
- A chunk is its corner position (the group position the game sets) plus its block list.
- A chunk key, the string `"x,z"` in the game, is the pair `(x, z)`.

The model follows the code where the code behaves in ways one might not expect:

- **Eviction is lopsided.** The eviction test measures from the chunk's corner, not the
  chunk distance. With the camera in chunk column `px`:
  - column `px + 3` is always kept;
  - `px + 4` and `px - 4` are always evicted;
  - `px - 3` is kept only when the camera stands exactly on the column's west edge.
- **Moving east three chunks keeps the origin chunk.** With the camera moved from (0, 0) to
  (48, 0), key (0, 0) stays loaded, because its corner is exactly 48 away. It is evicted
  only once the camera is past 48.
- **No cell is air.** Every cell gets a block; cells above the surface are grass.
- **The chunk list never shrinks.** Evicted chunks stay in `chunks` and are walked again by
  every later unload pass.

## Model

| member | source | states |
|---|---|---|
| Terrain.Height | game.js:88 | the column height is at least 2 and at least noise·10, equals one of them, and is at most 10 when noise lies in [-1, 1] |
| Terrain.ColumnMaterial | game.js:90-92 | every cell is stone, dirt or grass; no cell is air, water, wood or sand |
| Terrain.ColumnRanges | game.js:90-92 | a cell is stone iff y < h − 1, dirt iff h − 1 ≤ y < h, grass iff h ≤ y, so every cell gets a block |
| Terrain.BottomIsStone | game.js:88-90 | with h ≥ 2 the bottom cell (y = 0) is stone |
| Terrain.HighCellsAreGrass | game.js:90-92 | with h ≤ 10 every cell at y ≥ 10 is grass |
| Terrain.LayersMonotone | game.js:90-92 | going up a column, materials run stone, then dirt, then grass, and never go back |
| Terrain.OneDirtCell | game.js:90-92 | every column has exactly one dirt cell |
| Terrain.ChunkBlocks | game.js:85-98 | a chunk holds exactly 16·16·16 blocks |
| Terrain.CellIndexDecode | game.js:85-87 | emission position (x·16 + y)·16 + z of a local cell is below 4096 and gives back x, y and z |
| Terrain.ChunkCell | game.js:88-95 | the block emitted for local cell (x, y, z) carries the position (x + xo·16, y, z + zo·16) set on it, relative to its chunk group, with the column rule's material for that column's height |
| Terrain.CellIndexInjective | game.js:85-95 | distinct local cells are emitted at distinct positions: one block per cell |
| Terrain.ChunkLayers | game.js:88-92 | with noise in [-1, 1], every chunk's bottom layer is stone and every layer from 10 up is grass |
| Terrain.CreateChunk | game.js:83-100 | the triple loop, x outer and z inner, emits exactly the chunk's block list in cell order |
| Inventory.Added | game.js:41-48 | an add never takes the list past 10; below 10 it appends the item at the tail and keeps every earlier entry; a list left at the same length is unchanged |
| Inventory.ItemMaterial | game.js:28-35 | no item of the table is drawn with the water texture |
| Inventory.AddedAllKeepsFirstTen | game.js:38-48 | a run of adds keeps the existing entries followed by exactly as many of the new items, in order, as fit in ten slots |
| Inventory.ElevenAdds | game.js:38-48 | ten adds to an empty inventory store all ten items, and the eleventh add changes nothing |
| Inventory.Inventory.constructor | game.js:38 | the inventory starts empty |
| Inventory.Inventory.AddItem | game.js:41-48 | the inventory stays within 10 entries; the item is appended exactly when it was below 10, which the result reports, and otherwise nothing changes |
| Inventory.Inventory.SelectItem | game.js:50-52 | a lookup yields the entry at the index exactly when 0 ≤ index < length, and nothing otherwise, including on an empty inventory |
| Modes.ModeState.constructor | game.js:75 | the game starts in Survival |
| Modes.ModeState.SwitchMode | game.js:133-136 | a switch sets the mode to the one given, whatever the mode was before |
| Streaming.ChunkCoord | game.js:104-105 | the camera's chunk coordinate k satisfies 16·k ≤ c < 16·(k + 1) |
| Streaming.KeyOf | game.js:127 | the key computed from a chunk corner that is a multiple of 16 is the corner divided by 16 on each axis |
| Streaming.Far | game.js:122-125 | for a chunk whose corner is a multiple of 16, the eviction test holds iff the corner of its key is more than 48 from the camera on x or z |
| Streaming.NewChunk | game.js:109-127 | a chunk created for key k sits at corner (16·k.x, 16·k.z), and the key the unload pass computes from that corner is k again |
| Streaming.Column | game.js:108-109 | the inner loop visits zHi − zLo keys, or none when zHi ≤ zLo |
| Streaming.Rows | game.js:107-109 | the two loops visit five keys for each x in [xLo, xHi) |
| Streaming.Window | game.js:104-109 | the load pass visits 5·5 keys |
| Streaming.ColumnMembers | game.js:108-109 | the inner loop visits exactly the keys (x, z) with zLo ≤ z < zHi |
| Streaming.RowsMembers | game.js:107-109 | the two loops visit exactly the keys with x in [xLo, xHi) and z in the five-wide range from zLo |
| Streaming.WindowMembers | game.js:104-109 | the load pass visits exactly the keys within chunk distance 2 of the camera's chunk on both axes |
| Streaming.ColumnDistinct | game.js:108-109 | the inner loop visits no key twice |
| Streaming.RowsDistinct | game.js:107-109 | the two loops visit no key twice |
| Streaming.WindowDistinct | game.js:107-109 | the load pass visits 25 distinct keys |
| Streaming.WindowNeverFar | game.js:104-125 | no key of the window fails the eviction test, since its corner is at most 48 from the camera on each axis |
| Streaming.Spawned | game.js:110-116 | the load pass creates at most one chunk per visited key |
| Streaming.SpawnedKeys | game.js:110-113 | the load pass creates a chunk for a key iff the key is visited and was not loaded beforehand |
| Streaming.SpawnedWellFormed | game.js:111-113 | every chunk the load pass creates is the chunk generated for its own key |
| Streaming.SpawnedDistinct | game.js:110-115 | when the visited keys are distinct, the load pass creates no two chunks with the same key |
| Streaming.SpawnedNone | game.js:110 | the load pass creates nothing when every visited key is already loaded |
| Streaming.LoadsExactlyMissing | game.js:107-118 | the load pass keeps the earlier chunks as a prefix and appends one chunk for each window key missing beforehand, generated for that key, and no other, with no key twice |
| Streaming.Evicted | game.js:121-129 | the unload walk only deletes keys of recorded chunks |
| Streaming.EvictedMembers | game.js:121-129 | for well-formed chunks, a key is deleted iff some recorded chunk has that key and its corner is more than 48 from the camera on x or z |
| Streaming.NextChunks | game.js:103-130 | a reconciliation keeps the old chunk list as a prefix: the list never shrinks |
| Streaming.NextLoaded | game.js:103-130 | after a reconciliation every loaded key was loaded before or lies in the window |
| Streaming.LoadedAfter | game.js:103-130 | after a reconciliation a key is loaded iff it was loaded or lies in the window, and its corner is not more than 48 from the camera on either axis |
| Streaming.CoversWindow | game.js:103-130 | after a reconciliation every key of the window is loaded |
| Streaming.ConsistentPreserved | game.js:103-130 | a reconciliation keeps every recorded chunk the chunk of its key, and every loaded key backed by a recorded chunk |
| Streaming.Idempotent | game.js:103-130 | a second reconciliation at the same camera position changes neither the loaded keys nor the chunk list |
| Streaming.EvictionFromCorner | game.js:104-125 | with the camera in chunk column px, column px + 3 is kept, px ± 4 are evicted, and px − 3 is evicted unless the camera is exactly on px's west edge |
| Streaming.RetainedAtEdge | game.js:104-129 | from a consistent state holding key (0, 0), reconciling at (48, 0) loads every key with x in [1, 5] and z in [-2, 2] and keeps key (0, 0) |
| Streaming.EvictedPastEdge | game.js:121-129 | from any consistent state, reconciling at (49, 0) leaves key (0, 0) unloaded |
| Streaming.MoveThreeChunksEast | game.js:103-130 | after reconciling at the origin and then at (48, 0), keys x ∈ [1, 5] × z ∈ [-2, 2] and key (0, 0) are loaded; at (49, 0) key (0, 0) is not |
| Streaming.ChunkStreamer.constructor | game.js:64-65 | the streamer starts with no loaded keys and no chunks, and is consistent |
| Streaming.ChunkStreamer.LoadChunks | game.js:103-130 | one call leaves the chunk list and the loaded set equal to NextChunks and NextLoaded of the state before, and keeps the streamer consistent |
| Streaming.ChunkStreamer.LoadWindow | game.js:104-118 | the load loops leave the loaded set equal to the old one plus every window key, and the chunk list equal to the old one followed by the chunks of the keys missing beforehand, in visiting order |
| Streaming.ChunkStreamer.LoadColumn | game.js:108-117 | one pass of the inner loop extends the loaded set and the chunk list from covering columns xLo .. x − 1 of the window to covering column x as well |
| Streaming.ChunkStreamer.Visit | game.js:109-116 | visiting a key not visited before marks it loaded, and appends its newly generated chunk exactly when it was not loaded at the start of the pass |
| Streaming.ChunkStreamer.UnloadFar | game.js:121-129 | the unload walk removes from the loaded set exactly the keys of the recorded chunks that fail the eviction test |
| Interaction.Placement | game.js:211-225 | a click places a block iff there is a hit, slot 0 holds an item and the mode is Creative; the block then has the item's material and sits at the first hit's point |
| Interaction.PlacementUsesNearestPoint | game.js:211-219 | the decision depends only on the first hit's point, not on the object struck or on later hits |
| Interaction.WoodOnStone | game.js:211-223 | in Creative mode with a wood block selected, clicking any point of the stone block at the origin places wood at that point; in Survival mode it places nothing |
| Interaction.Scene.Click | game.js:211-225 | a click adds the block the placement rule yields for inventory slot 0 and the current mode, and nothing else |

## Left out

- Scene, camera, renderer, lighting and texture loading (game.js:1-25): rendering only.
- `createBlock` (game.js:55-59): only mesh construction. A block is its material and position.
- The noise formula (game.js:78-80): floating-point sine and cosine, taken as a parameter.
- Composing a chunk group's position with its blocks' positions. The game sets each block's
  position to x + xo·16 (game.js:94) and also moves the chunk group to (xo·16, 0, zo·16)
  (game.js:112), so the scene draws every chunk other than offset 0 at twice its offset. The
  model keeps the position set on the block and the group position separately, as the game
  does, and does not compose them.
- `scene.add` and `scene.remove` of chunk groups (game.js:114, 126): rendering only. The
  model keeps the set of loaded keys and the list of created chunks.
- `updatePlayer` (game.js:174-189): floating-point movement and gravity.
- `updateLighting` (game.js:193-196): driven by the clock.
- Ray intersection and its camera filter (game.js:199-209): the hit list, already filtered,
  is an input.
- First-person mouse controls, keyboard listeners, `animate` and the resize handler: event glue.
- `console.log` messages: `AddItem`'s result says which message is logged.
- `worldSize`: declared and never used.
- Streaming.ChunkStreamer.LoadChunks: camera coordinates are exact reals, so rounding in the
  game's floating-point division and subtraction is not modelled.
- Inventory.Inventory.SelectItem: the game's `|| null` also maps falsy entries to null.
  Items here are enumerated identifiers, none of them falsy, so this case cannot arise.
