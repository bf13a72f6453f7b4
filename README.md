# voyage-voyage game server and biome decoration state, in Dafny

This project models the authoritative server of the multiplayer fishing and
walking game *voyage-voyage* (`server.js`) and the decoration state kept by the
browser client's `BiomeManager` (`public/js/biomemanager.js`). It proves
properties of that model.

The server keeps two registries:
- `rooms`, keyed by room id;
- `playersGlobal`, keyed by socket id.

Each room holds:
- its players and their latest inputs;
- a deterministic world: grass, trees, insects and an optional village of
  buildings. The world is generated from a seeded pseudo-random stream named
  after the room id.

A fixed-rate tick moves every player:
- steering, gravity and the jump;
- the walking and idle animation flags and frame counters;
- the grass the player brushes against;
- the fishing float's state machine.

The same tick moves the insects. On the client, the `BiomeManager` does three
things:
- splits the server's plants and trees into background and foreground lists by
  their `zIndex`;
- runs the grass sway timer;
- draws a row of ground tiles.

Files and modules:

| file | module | contents |
|---|---|---|
| `common.dfy` | `Common` | `Option`/`Result`, JavaScript number helpers (`Math.floor`, `Math.ceil`, `%`, `toString` in base 10 and base 16) |
| `random.dfy` | `Random` | `createSeededRandom`: the string hash, the 32-bit linear congruential step, the output scaling, and a `SeededRandom` class whose `Next` draws the stream |
| `worldgen.dfy` | `WorldGen` | `generateGroundPlants`, `generateTrees`, `generateInsects` |
| `buildings.dfy` | `Buildings` | `getBiomeBuildingInfo`, `_getNumberOfBuildingsForType`, `_generateBuildingsLayout` |
| `roomsetup.dfy` | `RoomSetup` | the world parameters of `createRoom` (biome, width, village type and position) and the assembled `gameData` |
| `players.dfy` | `Players` | the player record, the per-player physics, animation and fishing steps of the tick, the jump/cast/reel-in handlers, `getArmRotationAngle` and `calculateRodTipWorldPosition` |
| `rooms.dfy` | `Rooms` | one room's tick: the players loop with the grass it sways, and the insect loop |
| `registry.dfy` | `Registry` | the `GameServer` class with `rooms` and `playersGlobal`, every socket handler, the tick over all rooms, `getPublicRoomList` |
| `biome.dfy` | `Biome` | the `BiomeManager` class: `_generateFirstLayerTileGrid`, `initializeGroundPlants`, `initializeTrees`, `startSwayAnimation`, `_updateGroundPlantsAnimation` |

How the model is built:

- **Random stream.** The stream is exact. The state is an `int` kept in the
  signed 32-bit range, and `| 0` is written out as reduction modulo 2^32.
  - Each output is `(state mod 2^32) / 4294967295`. The divisor is 2^32−1, so
    the value 1.0 is reachable. `Random.OneIsReachable` exhibits the state that
    produces it.
  - The generators are methods that draw from a `SeededRandom` object in loops,
    as the source does. Each is proved equal to a reference function.
  - A reference function reads a finite prefix `vals` of the stream (`Draws`);
    `Val(vals, k)` is the k-th value.
  - The properties are lemmas about the reference functions: counts, ids,
    bounds, tree spacing, building separation, sorting.
- **Registry.** `GameServer` is a class with two map fields.
  - Each handler is a method whose `ensures` gives the whole new state.
  - Every method keeps the invariant `Valid()`:
    - a room is keyed by its own id;
    - its host is one of its players;
    - every player has an input entry;
    - its player order lists exactly its players;
    - every seated player's global record names that room.
- **Tick.** The tick is proved against the closed-form reference
  `Rooms.RoomAfterTick`.
  - The players loop overlays the moved players one at a time.
  - Grass in the players loop is updated once per player. Its final state is
    proved to depend only on the set of walking players touching it
    (`Rooms.GrassAfterClosedForm`), not on their order.
- **Client.** `BiomeManager` is a class whose methods reassign its list fields.
  Plant and tree records are values in `seq` fields.

Behaviour the code has, as the model states it:

- **Undefined biome.** A biome draw of exactly 1.0 picks index 2 of a
  two-element array. The biome is then undefined:
  - no trees;
  - no building definitions;
  - an undefined biome is carried in `gameData`.
- **World width.** A width draw of 1.0 gives 14001, one more than
  `WORLD_WIDTH_MAX`.
- **Building definitions.** A definition draw of 1.0 selects a definition past
  the end of the list. The source then throws a `TypeError` inside the
  `createRoom` handler. The handler has no `try`/`catch`, so the exception
  escapes the listener and no callback is sent. The model returns `Err`, and
  `CreateRoom` leaves both registries unchanged; its reply is `Thrown`. This is
  an abstraction of the handler's own effect only: with Node's default handling
  of an uncaught exception the whole process ends, and every room with it
  (see "## Left out").
  - This differs from a general [0, 1) description of the stream. The model
    follows the code.
- **Insects.** Generation spends two draws on `timeOffset`, and the second value
  is the one kept. It places insects between `1080*(0.6-2)` (negative) and the
  ground. The tick clamps `y` to `[432, 1080-groundLevel-32]`.
- **Fishing float.** A falling float lands at `WATER_TOP_Y_WORLD - FLOAT_HITBOX_RADIUS`,
  which is 1080−164−16 = 900. The model's bound on the float's height is that
  value.
- **Tree and building search.** Tree placement skips a tree whose 50 attempts
  all fail. Building placement stops the whole loop at the first building whose
  100 attempts fail.
- **Leaving a room.** Leaving or disconnecting deletes the room when it becomes
  empty or the leaver was its host. Only the leaver's `currentRoomId` is
  cleared. When the host leaves a room that still holds other players, the room
  is deleted and each of those players is "stranded": its `currentRoomId` names
  a room that no longer exists. `Registry.GameServer.LeaveRoom` and
  `Registry.GameServer.Disconnect` state this for every other member
  (`Registry.HostLeftStrands`).
  - Those stranded players cannot join another room: `joinRoom` sees the stale
    id. This is the message "already in another room".
- **Colours.** `'#' + Math.floor(Math.random()*16777215).toString(16)` is not
  zero-padded, so a colour can have fewer than six hex digits
  (`Registry.ColorFor`).
- **Room id collision.** A room id that collides with an existing one
  overwrites that room, as the model's map update states.

## Model

| member | source | states |
|---|---|---|
| Common.NatToStringLength | server.js:155 | the decimal rendering of a natural number is non-empty, and one character long exactly below 10 |
| Common.NatToStringInjective | server.js:155 | distinct numbers render as distinct decimal strings |
| Common.IndexedIdInjective | server.js:155 | ids of the form prefix + index are equal exactly when the indices are |
| Common.NatToHex | server.js:407 | the base-16 rendering is non-empty, and one digit long exactly below 16 |
| Common.DecimalDigitCount | server.js:410 | a number below 10^k has at most k decimal digits, and one at least 10^(k−1) has at least k |
| Common.HexDigitCount | server.js:407 | a number below 16^k has at most k hex digits, and one at least 16^(k−1) has at least k |
| Common.Ceil | public/js/biomemanager.js:230 | `Math.ceil`: the least integer not below its argument |
| Common.FloorNat | server.js:147 | `Math.floor` of a non-negative value: the greatest natural number not above it |
| Random.ToInt32 | server.js:131 | the bitwise-or with 0 yields a signed 32-bit integer congruent to its argument modulo 2^32 |
| Random.ToInt32OfInt32 | server.js:131 | the bitwise-or with 0 leaves a value already in signed 32-bit range unchanged |
| Random.StringHash | server.js:129-132 | the base-31 hash of the seed string stays a signed 32-bit integer |
| Random.InitialSeed | server.js:129-135 | the start state is a signed 32-bit integer, never 0, and it is the hash whenever the hash is not 0 |
| Random.Step | server.js:138 | the next state is 32-bit and congruent to seed·1664525 + 1013904223 modulo 2^32 |
| Random.StateAfter | server.js:137-138 | the state after any number of calls stays a signed 32-bit integer |
| Random.StateAfterStep | server.js:137-138 | the state after k+1 calls is one step after the state after k calls |
| Random.Unit | server.js:136-139 | the output lies in [0, 1] and is exactly 1 when and only when the state is −1 |
| Random.Draw | server.js:128-141 | the k-th value of a seed string's stream lies in [0, 1]; it depends only on the seed string and k |
| Random.DrawFrom | server.js:137-140 | the k-th value from a given state lies in [0, 1] |
| Random.DrawFromState | server.js:137-140 | the k-th value is the scaled state after k+1 steps |
| Random.Draws | server.js:128-141 | the first n values of a seed's stream, each equal to the value at its index |
| Random.DrawsPrefix | server.js:128-141 | the first n values form a prefix of that seed's stream |
| Random.DrawBelowOne | server.js:136-140 | a value is below 1 exactly when the state reached is not −1 |
| Random.OneIsReachable | server.js:136-140 | the state 653637408 steps to −1, whose output is exactly 1.0 |
| Random.SeededRandom.constructor | server.js:128-136 | a new generator has its seed string as source and has drawn nothing |
| Random.SeededRandom.Next | server.js:137-140 | each call returns the next value of the source's stream and advances the count by one |
| WorldGen.GroundPlantsFor | server.js:143-167 | the plants of a room; computed by `WorldGen.GenerateGroundPlants`, stated by `WorldGen.PlantsFacts` |
| WorldGen.GenerateGroundPlants | server.js:143-167 | the plants built from the seed `roomId + "-plants"` are the reference `GroundPlantsFor` |
| WorldGen.PlacePlants | server.js:149-165 | the loop spends exactly four values per plant, in order, and builds the reference list |
| WorldGen.PlantFrom | server.js:150-164 | one plant from its four values; stated by `WorldGen.PlantFromFacts` |
| WorldGen.PlantFromFacts | server.js:150-164 | plant i has id `grass_i` and ground y; it is not swaying and has sway time 0; zIndex −1 iff the 4th value < 0.7, else 1; mirrored iff the 3rd < 0.5; sprite < 12 unless the 2nd value is 1.0; x in [0, worldWidth] |
| WorldGen.PlantsFacts | server.js:143-167 | there are exactly floor(worldWidth·0.075) plants (none for a negative width), each with the facts above at its own four values |
| WorldGen.PlantIdsDistinct | server.js:149-157 | plant ids are pairwise distinct |
| WorldGen.CheckTreeOverlap | server.js:193-199 | the for-of loop reports overlap iff some placed trunk is closer than 64 |
| WorldGen.TreeDensityModifierBounds | server.js:181 | the room's density modifier 1 + (2r−1)·0.55 lies in [0.45, 1.55] |
| WorldGen.TreeSlotsAtMost | server.js:181-183 | the tree count floor(w·0.015·m) is at most the count for m = 1.55 |
| WorldGen.TreesFor | server.js:170-226 | the trees of a room; computed by `WorldGen.GenerateTrees`, stated by `WorldGen.TreesFacts` |
| WorldGen.GenerateTrees | server.js:170-226 | the trees built from the seed `roomId + "-trees"` are the reference `TreesFor` |
| WorldGen.PlaceTrees | server.js:185-224 | the outer tree loop; computed by `WorldGen.PlaceTreeSlots`, stated by `WorldGen.PlaceTreesSpaced`, `WorldGen.PlaceTreesIds` and `WorldGen.PlaceTreesCount` |
| WorldGen.PlaceTreesFrom | server.js:180-224 | the density value followed by the slot loop, on a fresh generator, builds the reference `PlaceTrees` over the slot count that value gives |
| WorldGen.PlaceTreeSlots | server.js:185-224 | the outer loop over tree slots builds the reference `PlaceTrees` |
| WorldGen.PlaceTreeSlot | server.js:186-223 | one slot spends at most 50 + 3 values, and continues the reference from where the slot ends |
| WorldGen.SearchTreeSpot | server.js:190-206 | the attempts loop spends at most 50 values and returns the first candidate clear of every placed trunk, or nothing |
| WorldGen.TryTreeSpot | server.js:191-199 | one attempt spends one value, the candidate is value·worldWidth, and the flag is the overlap test |
| WorldGen.FindTreeXStep | server.js:190-206 | a clear candidate is taken at once; otherwise the search goes on with the next value and one more attempt |
| WorldGen.PlaceTreesStep | server.js:185-224 | a slot whose search fails adds no tree and spends no further value; a placed tree spends three more values |
| WorldGen.FoundTreeX | server.js:190-204 | a first candidate clear of every trunk is the spot chosen, and it lies inside [0, worldWidth] |
| WorldGen.FindTreeXClear | server.js:190-206 | a chosen x is at least 64 from every placed trunk and inside [0, worldWidth] |
| WorldGen.AppendTreeSpaced | server.js:193-220 | appending a trunk clear of all placed ones keeps every pair at least 64 apart |
| WorldGen.SlotIdsDistinct | server.js:209 | trees named after strictly increasing slots have distinct ids |
| WorldGen.PlaceTreesSpaced | server.js:185-224 | the spacing invariant holds for every tree list the loop builds |
| WorldGen.TreeFrom | server.js:208-215 | one tree from its three values; stated by `WorldGen.TreeFromWellFormed` |
| WorldGen.TreeFromWellFormed | server.js:208-215 | a tree at an in-range x stands on the ground line, is front or back (zIndex ±1), and has a sprite index at most the definition count |
| WorldGen.AppendTreeWellFormed | server.js:208-220 | appending a well-formed tree keeps all trees well formed |
| WorldGen.PlaceTreesWellFormed | server.js:185-224 | every tree the loop builds is well formed |
| WorldGen.AppendTreeSlot | server.js:209 | a tree appended at slot i keeps ids tied to increasing slots |
| WorldGen.PlaceTreesIds | server.js:185-224 | the loop's trees are named after increasing slots below the slot count |
| WorldGen.PlaceTreesSlot | server.js:185-224 | one slot of the outer loop either leaves the trees unchanged or appends exactly one tree, with id `tree_i`, and the remaining slots continue from there |
| WorldGen.PlaceTreesCount | server.js:185-224 | the loop adds at most one tree per slot and removes none |
| WorldGen.TreesFacts | server.js:170-226 | trees are pairwise 64 apart, have distinct ids and are well formed; there are none without biome details and at most floor(w·0.015·m) |
| WorldGen.InsectsFor | server.js:230-265 | the insects of a room; computed by `WorldGen.GenerateInsects`, stated by `WorldGen.InsectsFacts` |
| WorldGen.GenerateInsects | server.js:230-265 | the insects built from the seed `roomId + "-insects"` are the reference `InsectsFor` |
| WorldGen.PlaceInsects | server.js:240-263 | the loop spends exactly ten values per insect and builds the reference list |
| WorldGen.NextInsect | server.js:241-262 | one iteration spends ten values, `timeOffset` twice, and yields insect i of the reference |
| WorldGen.InsectStartX | server.js:241 | the starting x of an insect lies within the world width |
| WorldGen.InsectStartY | server.js:242 | the starting y of an insect lies between minY and maxY whenever minY is not above maxY |
| WorldGen.InsectFrom | server.js:241-262 | one insect from its ten values; stated by `WorldGen.InsectFromFacts` |
| WorldGen.InsectFromFacts | server.js:241-262 | insect i has id `insect_i`, anchorX = x and baseY = y, angle 0 and frame 0; timeOffset is the second timeOffset value ·2000; x and y lie in their ranges, and hue, drift, speeds and amplitudes in theirs |
| WorldGen.InsectsFacts | server.js:230-265 | there are exactly floor(worldWidth·0.0015) insects, each with those facts at its own ten values |
| WorldGen.InsectIdsDistinct | server.js:240-247 | insect ids are pairwise distinct |
| Buildings.BiomeBuildingInfo | server.js:85-114 | building info exists exactly for a defined biome, with three definitions and its display scale |
| Buildings.BuildingCountBounds | server.js:268-280 | none gives 0; minimal 1–3, medium 3–6, large 6–10, each one more only for a value of 1.0 |
| Buildings.NumberOfBuildingsForType | server.js:268-280 | spends one value except for village type none, and returns the count for that value |
| Buildings.ClusterFor | server.js:300-311 | the cluster is centred on the village x, and its width is the estimate clamped to [0.1·w, 0.8·w] (the lower bound applied first) |
| Buildings.CandidateX | server.js:323-327 | a candidate never passes maxClusterX − width; when the building fits, it is at least minClusterX and linear in the value |
| Buildings.CheckBuildingOverlap | server.js:329-336 | reports overlap iff some placed building is closer than the 32 gap on either side |
| Buildings.DefinitionIndex | server.js:315 | the definition index is at most the count, and below it when the value is below 1 |
| Buildings.LayoutFor | server.js:282-359 | the layout of a room; computed by `Buildings.GenerateBuildingsLayout`, stated by `Buildings.LayoutFacts` |
| Buildings.GenerateBuildingsLayout | server.js:282-359 | the layout built from the seed `roomId + "-buildings"` is the reference `LayoutFor` |
| Buildings.PlaceBuildings | server.js:314-356 | the building loop; computed by `Buildings.PlaceAllBuildings`, stated by `Buildings.PlaceBuildingsKeeps` and `Buildings.PlaceBuildingsDefined` |
| Buildings.PlaceAllBuildings | server.js:314-356 | the outer loop builds the reference `PlaceBuildings`, stopping on the first failed search |
| Buildings.PlaceOneBuilding | server.js:315-355 | one pass reports an undefined definition, a failed search, or the building placed and where the stream stands |
| Buildings.SearchBuildingSpot | server.js:322-343 | the attempts loop spends at most 100 values and returns the first clear candidate, or nothing |
| Buildings.TryBuildingSpot | server.js:323-336 | one attempt spends one value, and returns the clamped candidate and its overlap flag |
| Buildings.FindBuildingXStep | server.js:322-343 | a clear candidate is taken at once; otherwise the search goes on with the next value |
| Buildings.FindBuildingXClear | server.js:322-343 | a chosen x is clear of every placed building and within the cluster's upper bound (and lower bound when the building fits) |
| Buildings.AppendApart | server.js:329-347 | appending a clear building keeps every pair separated by the gap |
| Buildings.AppendInCluster | server.js:345-350 | appending a building inside the cluster keeps all inside |
| Buildings.BuildingSlotFacts | server.js:315-355 | a placed building is clear of the others and inside the cluster; an undefined definition needs a value of exactly 1.0 |
| Buildings.PlaceBuildingsKeeps | server.js:314-356 | the loop keeps buildings pairwise separated and inside the cluster, and adds at most one per pass |
| Buildings.PlaceBuildingsDefined | server.js:315 | if no value is 1.0, the loop never reaches an undefined definition |
| Buildings.InsertByX | server.js:357 | one insertion step of the sort; stated by `Buildings.InsertByXMultiset` and `Buildings.InsertByXSorted` |
| Buildings.InsertByXMultiset | server.js:357 | insertion adds exactly the inserted building |
| Buildings.InsertByXSorted | server.js:357 | insertion keeps a list sorted by x |
| Buildings.SortByX | server.js:357 | the stable sort by x; stated by `Buildings.SortByXFacts` |
| Buildings.SortByXMultiset | server.js:357 | sorting by x is a permutation |
| Buildings.SortByXFacts | server.js:357 | sorting by x yields a permutation sorted ascending by x |
| Buildings.InsertByXApart | server.js:357 | inserting a building separated from all others keeps the list pairwise separated |
| Buildings.SortByXApart | server.js:357 | sorting keeps the buildings pairwise separated |
| Buildings.LayoutFacts | server.js:282-359 | no village or no building info gives no buildings; a stream without 1.0 never fails; a layout has at most the drawn count, sorted by x, pairwise separated, inside the cluster |
| RoomSetup.TotalWeight | server.js:72-77 | the village weights sum to 100 |
| RoomSetup.FirstBucketThresholds | server.js:439-448 | the chosen type is none below 40, minimal below 72, medium below 92, large below 100, and none otherwise |
| RoomSetup.SelectVillageType | server.js:439-448 | the loop that subtracts weights selects the first cumulative bucket that holds the number |
| RoomSetup.BiomeFromDrawFacts | server.js:435 | a value below 0.5 picks jurassic, one in [0.5, 1) picks grassland, and only 1.0 leaves the biome undefined |
| RoomSetup.WorldWidthBounds | server.js:436 | the width lies in [4000, 14000] for a value below 1, and is 14001 exactly for 1.0 |
| RoomSetup.VillageXBounds | server.js:452-455 | the village x lies in [0.2·w, 0.8·w] |
| RoomSetup.ParamsFrom | server.js:433-456 | the room parameters from the stream; computed by `RoomSetup.DrawRoomParameters`, stated by `RoomSetup.ParamsFacts` |
| RoomSetup.DrawRoomParameters | server.js:433-456 | reads biome, width, village type and (only with a village) village x in stream order: 3 values without a village, 4 with one |
| RoomSetup.ParamsFacts | server.js:433-456 | width bounds; the biome is undefined iff the first value is 1.0; the village x is null iff the type is none, and otherwise in [0.2·w, 0.8·w] |
| RoomSetup.GameDataFor | server.js:433-481 | the room's world from its id; computed by `RoomSetup.GenerateGameData`, stated by `RoomSetup.GameDataFacts` |
| RoomSetup.GenerateGameData | server.js:433-481 | the room's world is the reference `GameDataFor` of the room id |
| RoomSetup.GameDataFacts | server.js:433-481 | ground level 256; width bounds; no buildings without a village; plant and insect counts for the width; failure only when a building value is exactly 1.0 |
| Players.Assign | server.js:642-643 | `Object.assign`: the keys of both, the new values winning, the others kept |
| Players.NewPlayer | server.js:487-503 | a new player stands at x = 50 on the ground line, idle, not jumping, with the given customizations and no line cast |
| Players.JsRem | server.js:769 | JavaScript `%` on a non-negative number stays in [0, m) |
| Players.JsRemInt | server.js:773 | JavaScript `%` on integers keeps the dividend's sign, with magnitude below m |
| Players.Steer | server.js:721-737 | the steering step of the tick, from the keys held; its properties are stated by `Players.SteerFacts` |
| Players.SteerFacts | server.js:721-737 | a left key gives velocity −14 and direction −1 whatever the right key; else a right key gives 14 and 1; with neither, velocity is multiplied by 0.8 and snaps to 0 below 0.5 |
| Players.MoveHorizontally | server.js:739-741 | the horizontal move and clamp; stated by `Players.MoveHorizontallyFacts` |
| Players.MoveHorizontallyFacts | server.js:739-741 | x is clamped to [0, worldWidth − 128], and unchanged apart from the velocity when that stays inside |
| Players.MoveVertically | server.js:743-758 | gravity and the landing on the ground line; stated by `Players.MoveVerticallyFacts` |
| Players.MoveVerticallyFacts | server.js:743-758 | y never ends below the ground line; a landing sets y to the ground line, velocityY 0 and isJumping false; a player resting on the ground is untouched |
| Players.Animate | server.js:760-777 | the walking/idle flags and frame counters; stated by `Players.AnimateFacts` |
| Players.AnimateFacts | server.js:760-777 | walking iff moving faster than 0.5 on the ground; idle iff not walking, not jumping, slower than 0.5 and on the ground; never both; both frames are 0 when neither holds, and frames in [0, 30) and [0, 60) stay there |
| Players.PlayerMotion | server.js:721-780 | steering, moving and animating in source order; stated by `Players.PlayerMotionFacts` and `Players.PlayerMotionKeepsLine` |
| Players.PlayerMotionFacts | server.js:721-780 | after steering, moving and animating: x in range, y not below the ground line, the flags exclusive, frames in range, the mouse copied from the input |
| Players.PlayerMotionKeepsLine | server.js:721-780 | player motion leaves identity, customizations and all fishing state untouched |
| Players.FishingTick | server.js:816-854 | the fishing part of the tick; stated by `Players.FishingTickFacts` and `Players.FishingTickKeepsMotion` |
| Players.FishingTickFacts | server.js:816-854 | without a rod the line is cleared; with one the rod tip is set; a falling float stays at or above the water line 900; an anchored float stays on the anchor y, and its speed never grows and becomes 0 below 0.1 |
| Players.FishingTickKeepsMotion | server.js:816-854 | the fishing step changes only the line, float and rod-tip fields |
| Players.PlayerTickFacts | server.js:717-855 | one player's tick keeps x in [0, worldWidth − 128] and y above the ground line, walking and idle exclusive, frames in range |
| Players.FloatStep | server.js:820-843 | one step of a cast float; stated by `Players.FloatStepFrame` |
| Players.FloatStepFrame | server.js:820-843 | the float step changes only the float and anchor fields |
| Players.CastLine | server.js:655-667 | the `castFishingLine` update; stated by `Players.CastLineFacts` |
| Players.CastLineFacts | server.js:655-667 | casting changes nothing unless the rod is held and no line is cast; then the line is cast from the start point with no anchor |
| Players.ReelIn | server.js:674-683 | the `reelInFishingLine` update; stated by `Players.ReelInFacts` |
| Players.ReelInFacts | server.js:674-683 | reeling in with a line clears the line, the float and the anchors; it does nothing without one; afterwards no line is cast |
| Players.Jump | server.js:624-634 | the `playerJump` update; stated by `Players.JumpFacts` |
| Players.JumpFacts | server.js:624-634 | a jump changes the player iff not jumping and within 1 of the ground line; then it is jumping with velocity −25 |
| Players.ArmRotationAngle | server.js:363-370 | the arm swing angle; stated by `Players.ArmRotationBounds` |
| Players.ArmRotationBounds | server.js:363-370 | the arm angle is within ±45° given a sine in [−1, 1], and 0 when not walking |
| Players.RodTipWorldPosition | server.js:372-401 | the rod tip is defined exactly when the right hand holds a rod |
| Players.RodTipReach | server.js:372-401 | with bounded sine and cosine, the rod tip stays within 199 of the player's centre on each axis |
| Rooms.TickWorldWidth | server.js:713 | the width with its `WORLD_WIDTH_MIN` fallback is never 0 and is the room's width whenever that is not 0 |
| Rooms.GrassPrefixClosedForm | server.js:782-814 | after n > 0 players, a plant still within its sway keeps its state; otherwise it sways from now iff one of them walked into it, else it stops swaying |
| Rooms.GrassAfterClosedForm | server.js:782-814 | the same closed form for all the room's players at once |
| Rooms.GrassOrderIrrelevant | server.js:717-814 | the grass after the players loop depends only on the set of moved players, not their order |
| Rooms.GrassStep | server.js:790-813 | one plant under one player's pass; stated by `Rooms.GrassPrefixClosedForm` and `Rooms.GrassAfterClosedForm`, computed by `Rooms.SwayGrass` |
| Rooms.SwayGrass | server.js:783-813 | one player's pass over the plants updates each plant by the single-player rule |
| Rooms.InsectStep | server.js:863-892 | one insect's step; stated by `Rooms.InsectStepFacts` |
| Rooms.InsectStepFacts | server.js:863-892 | y is clamped to [432, ground − 32] (when that range is not empty), the angle to [−50, 50], the frame below 16 and advanced by one modulo 16; the anchor drifts, and the drift flips sign exactly when the anchor leaves [0, w] |
| Rooms.MoveInsects | server.js:863-892 | the insect loop applies the insect step to each insect in place |
| Rooms.Movers | server.js:717-719 | there is one moved player per entry of the room's player order |
| Rooms.TickedPlayersFacts | server.js:717-855 | the ticked players have the same ids, x in range, y above the ground line, walking and idle exclusive, frames in range |
| Rooms.TickRoom | server.js:710-897 | the players loop and the insect loop compute the reference room `RoomAfterTick` |
| Rooms.MovePlayers | server.js:717-855 | the players loop yields each player's tick, and each plant as left by the players in iteration order |
| Rooms.PlayerTurn | server.js:717-855 | one iteration overlays the next player's tick and moves the grass by that player |
| Rooms.GrassTurn | server.js:782-814 | one player's grass pass extends the grass state by that player |
| Rooms.RoomAfterTick | server.js:710-897 | the room after one tick; computed by `Rooms.TickRoom`, stated by `Rooms.RoomAfterTickPlayers` and `Rooms.RoomAfterTickWorld` |
| Rooms.RoomAfterTickPlayers | server.js:717-855 | a tick keeps the room's id, name, host, player ids, order and inputs, and bounds every player as above |
| Rooms.RoomAfterTickWorld | server.js:782-896 | a tick keeps the plant and insect counts, trees, buildings, width and ground level, and bounds every insect |
| Registry.ColorFor | server.js:407 | a colour is `#` and 1 to 6 hex digits; it has all 7 characters exactly when the number is at least 0x100000 |
| Registry.UsernameFor | server.js:410 | a username is `Gracz` followed by 1 to 4 digits |
| Registry.NewGlobalPlayer | server.js:407-419 | a connected player keeps the socket id, is in no room and has the default customizations |
| Registry.JoinFailureCases | server.js:573-581 | a failed join never reports the unknown error; "room does not exist" iff the room is missing, which takes precedence over "already in another room" |
| Registry.RoomNameOr | server.js:426 | a given non-empty name is kept; otherwise the name is `Pokój ` and a number |
| Registry.Without | server.js:588-589 | removing an id from the player order keeps exactly the other ids, distinct (the `delete` of leaveRoom, and the same one in disconnect at server.js:692) |
| Registry.AddPlayer | server.js:537-556 | seating a player in a room; stated by `Registry.AddPlayerFacts` |
| Registry.AddPlayerFacts | server.js:537-556 | joining adds exactly the new player and an empty input, appends to the order, and keeps everything else |
| Registry.RemovePlayer | server.js:588-589 | removing a player from a room, as leaveRoom does and as disconnect does at server.js:692-695; stated by `Registry.RemovePlayerFacts` |
| Registry.RemovePlayerFacts | server.js:588-589 | leaving removes exactly the player and its input, and keeps the rest of the room |
| Registry.NewRoomFacts | server.js:460-504 | a new room has the creator as host and sole player with an input entry |
| Registry.TickRooms | server.js:710-899 | the loop over rooms replaces every room by its ticked room and keeps the key set |
| Registry.GameServer.constructor | server.js:13-14 | the server starts with no rooms and no players |
| Registry.GameServer.Connect | server.js:404-419 | a connection records a new global player and changes no room |
| Registry.GameServer.CreateRoom | server.js:424-529 | a player already in a room is refused with nothing changed; a generation error changes nothing; otherwise the room is stored with the creator as host and sole player and the creator's room id is set |
| Registry.GameServer.JoinRoom | server.js:531-582 | a join succeeds iff the room exists and the caller is in no room, adding the player and the room id; otherwise the precedence message and nothing changed |
| Registry.GameServer.LeaveRoom | server.js:584-607 | leaving a valid room removes the player, clears only the leaver's room id and deletes an empty or host-less room; otherwise "not in a room" and nothing changed; when the leaver was the host, every other member of the room is stranded, its room id naming the deleted room |
| Registry.GameServer.Disconnect | server.js:687-706 | the global record is deleted; a seated player also leaves its room as in leaveRoom, and when it was the host every other member is stranded |
| Registry.HostLeftStrands | server.js:590-596 | after a host's room is deleted, every other member of it is still recorded and names the deleted room |
| Registry.GameServer.GetPublicRoomList | server.js:902-916 | the room list is the projection of every room |
| Registry.GameServer.HandlePlayerInput | server.js:613-620 | an input is stored only for a player with an input entry in a valid room |
| Registry.GameServer.PlayerJump | server.js:622-635 | a seated player's record is replaced by the jump rule; nothing else changes |
| Registry.GameServer.CastFishingLine | server.js:652-669 | a seated player's record is replaced by the casting rule; nothing else changes |
| Registry.GameServer.ReelInFishingLine | server.js:671-685 | a seated player's record is replaced by the reel-in rule; nothing else changes |
| Registry.GameServer.UpdateCustomization | server.js:637-650 | for a seated player, both the global and the room record get the changes merged; otherwise nothing changes |
| Registry.GameServer.Tick | server.js:709-900 | the tick replaces every room by its ticked room, keeps the players registry, and keeps the invariant |
| Registry.PublicRoomList | server.js:902-916 | the public room list; computed by `Registry.GameServer.GetPublicRoomList`, stated by `Registry.PublicRoomListFacts` |
| Registry.PublicRoomListFacts | server.js:902-916 | the list has one entry per room, with its id, its host among its players and its player count at least 1 |
| Registry.OutsideEveryRoom | server.js:428-431 | a player with no current room is in no room's player map |
| Registry.CreateKeepsValid | server.js:460-504 | storing a new room and recording it for the creator keeps the invariant |
| Registry.JoinKeepsValid | server.js:532-556 | adding a joining player and recording the room keeps the invariant |
| Registry.LeaveKeepsValid | server.js:592-598 | removing the leaver, maybe deleting the room, and clearing its room id keeps the invariant |
| Registry.DisconnectKeepsValid | server.js:689-705 | removing a seated player, maybe deleting the room, and deleting its record keeps the invariant |
| Registry.DisconnectOutsideKeepsValid | server.js:704 | deleting the record of a player not seated anywhere keeps the invariant |
| Registry.RoomLeft | server.js:592-598 | after the leaver is removed (and the room maybe deleted) the rooms keep their shape and the leaver is in no room |
| Registry.KeptRoomLeft | server.js:594-595 | a room kept after a non-host leaves keeps its shape and membership records |
| Registry.SameShapeKeepsValid | server.js:613-685 | a handler that keeps a room's id, host, players and order keeps the invariant |
| Registry.TickAllKeepsValid | server.js:709-900 | ticking every room keeps the invariant |
| Registry.TickKeepsShape | server.js:710-897 | a ticked room keeps its shape and gains no player |
| Biome.ZOrDefault | public/js/biomemanager.js:248 | a given zIndex is kept; a missing one becomes −1, a background value |
| Biome.OrOne | public/js/biomemanager.js:247 | the direction with its fallback 1: a non-zero direction is kept and the result is never 0 |
| Biome.Layer | public/js/biomemanager.js:250-251 | the filter keeps exactly the elements on the requested side of zIndex 0 and no more elements than there were |
| Biome.LayerAppend | public/js/biomemanager.js:250-251 | filtering a concatenation is the concatenation of the filtered parts |
| Biome.LayersPartition | public/js/biomemanager.js:250-251 | the background and foreground lists together hold every element exactly once |
| Biome.PreparedPlants | public/js/biomemanager.js:243-249 | each plant keeps its server fields, is not swaying, has timer 0, direction falling back to 1, zIndex defaulting to −1, and a scale in [2.2, 3.6) |
| Biome.PreparedTrees | public/js/biomemanager.js:259-265 | each tree keeps its server fields, has zIndex defaulting to −1 and a scale in [2.7, 3.6) |
| Biome.ServerPlantsPrepared | public/js/biomemanager.js:243-249 | plants as the server sends them (no direction, zIndex ±1) get direction 1 and keep their id and zIndex |
| Biome.Started | public/js/biomemanager.js:272-276 | starting a sway leaves a swaying plant alone; otherwise it sways with timer 0 and the direction falling back to 1; nothing else changes |
| Biome.FirstWithId | public/js/biomemanager.js:271 | the index found is the first plant with that id, and nothing is found iff no plant has it |
| Biome.SwayStep | public/js/biomemanager.js:282-289 | a still plant is untouched; a swaying plant's timer grows by deltaTime, and when it reaches 1.8 the sway stops and the timer is 0 |
| Biome.SwayStepKeepsSettled | public/js/biomemanager.js:279-291 | with a non-negative delta a settled plant stays settled: timer in [0, 1.8), and 0 when still |
| Biome.StillStaysStill | public/js/biomemanager.js:283 | a still plant stays unchanged over any number of frames |
| Biome.SwayEnds | public/js/biomemanager.js:279-291 | with a positive delta, a sway has ended with timer 0 once the frames add up to 1.8 seconds |
| Biome.TileFor | public/js/biomemanager.js:232-233 | every tile is one of `grass`, `ground_variant_224`, `ground_variant_256` |
| Biome.TileCount | public/js/biomemanager.js:230 | the number of first-layer tiles; stated by `Biome.TileCountCovers` |
| Biome.TileCountCovers | public/js/biomemanager.js:230 | ceil(w/(tileSize·3.75)) tiles cover the width, and one fewer would not |
| Biome.BiomeManager.constructor | public/js/biomemanager.js:2-171 | a new manager has empty plant and tree lists and the first-layer tile grid for its width |
| Biome.BiomeManager.GenerateFirstLayerTileGrid | public/js/biomemanager.js:228-235 | the grid has exactly ceil(w/(tileSize·3.75)) tiles (none when negative), each the tile its random value selects |
| Biome.BiomeManager.InitializeGroundPlants | public/js/biomemanager.js:237-252 | a null or empty input empties both lists; otherwise the prepared plants are split by zIndex ≤ 0, order preserved |
| Biome.BiomeManager.InitializeTrees | public/js/biomemanager.js:254-268 | a null or empty input empties both lists; otherwise the prepared trees are split by zIndex ≤ 0, order preserved |
| Biome.BiomeManager.StartSwayAnimation | public/js/biomemanager.js:270-277 | only the first plant with the id is started, the background list searched first; all other plants are unchanged |
| Biome.BiomeManager.UpdateGroundPlantsAnimation | public/js/biomemanager.js:279-291 | every plant of both lists takes one sway step, and settled timers stay settled for a non-negative delta |

## Left out

- Sockets, rooms of sockets and every `emit`, the callbacks' delivery, Express and `console` output. These are I/O. A handler's reply is returned as a value, and broadcasts are dropped.
- `Math.random` on the server becomes parameters:
  - the room id suffix (`toString(36).substr(2, 9)`);
  - the colour and username numbers.
- `Math.random` on the client becomes a sequence of values in [0, 1): the plant and tree scales and the tile choices.
- `Math.sin`, `Math.cos` and `Math.PI`'s rounding become parameters of the operations that use them (floating point).
- `Date.now()` is one parameter `now` for the whole tick. The source reads the clock again for every plant of every player, so within one tick its value can differ by a few milliseconds.
- `setInterval` timing and the tick rate are left out. The model's `Tick` is one firing of the interval.
- IEEE-754 rounding is not modelled. Positions and constants (1.6, 0.8, 0.9, 3.75) are exact reals.
- A handler here runs as one atomic method, as in Node's single-threaded event loop.
- Prototype-chain lookups in the source's object maps are not modelled. The key a client chooses is `joinRoom`'s room id: for `constructor` the guard `rooms[roomId]` (server.js:532) finds the inherited function. Line 533 joins the socket to room `constructor` and line 534 records the player in it; only then does line 536 throw, reading `rooms[roomId].gameData.groundLevel`. The model's rooms map holds only stored rooms, so the model refuses that join.
- Registry.GameServer.HandlePlayerInput: stores the whole input record. The source copies its three fields into the existing entry, which is the same record.
- Registry.GameServer.CreateRoom: `Thrown` stands for the `TypeError` that escapes the handler when the definition draw is 1.0. The model leaves both registries unchanged and the server running; what the exception does to the process (under Node's defaults it ends it, losing every room) is not modelled.
- Registry.GameServer.HandlePlayerInput: inputs are typed, so `keys` is always a map. A `playerInput` message without `keys` is stored as-is by the source and makes the next tick throw at `playerInput.keys[...]` (server.js:722); the model excludes that input.
- Random.StringHash: reads each character's Unicode scalar value, where `charCodeAt` reads UTF-16 code units. They differ only on characters outside the Basic Multilingual Plane; the seeds the server builds are ASCII.
- Rooms.TickRoom: JavaScript's `for ... in` key order is modelled as `playerOrder`, the order in which players joined.
- Biome.BiomeManager.constructor: in the source, `setBiome` builds the tile grid once and the constructor then builds it again. The model builds it once. The second grid overwrites the first, and both are drawn from `Math.random`.
- Biome.BiomeManager.constructor: requires `tileSize > 0`. The source's default is 32, and with 0 it would divide by zero.
- Biome.BiomeManager.constructor: does not model `gameHeight`, the images, the water plants or the biome definitions.
- Biome.PreparedPlants: does not model the `definition` lookup. It is a sprite reference from the biome definitions, with no state rule.
- Biome.PreparedTrees: does not model the `definition` lookup either.
- The client copies the server plant fields `swaying` and `swayStartTime` but never reads them. The model leaves them out.
- `setBiome`, `setVillageData`, the image loading, every `draw*` method, parallax, water and water plants are left out. They are rendering, or randomised visuals with no state rule.
- `public/script.js` and `public/render.js` are not part of this model. They hold the call sites of the client methods.
- The server's event log is not modelled.
