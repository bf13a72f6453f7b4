/** Deterministic world generation on the server (server.js): ground plants, trees,
    insects and the village layout of a new room, each driven by its own seeded
    stream (`roomId + "-plants"`, `"-trees"`, `"-insects"`, `"-buildings"`), and the
    room parameters drawn from the stream seeded by the room id itself.

    Every generator is a method that runs the source's loops against a
    `SeededRandom` object. Each is proved equal to a reference function over
    `vals`, a prefix of a stream of values in [0, 1] (`Val(vals, k)` is value k),
    instantiated with the room's own stream (`Draws`) read far enough; the
    properties the source relies on are lemmas about the reference functions,
    for every such prefix. */
module WorldGen {
  import opened Common
  import opened Random

  const GameHeight: real := 1080.0
  const GroundLevel: int := 256
  const GrassDensity: real := 0.075
  const TreeDensityBase: real := 0.015
  const TreeDensityVariation: real := 0.55
  const TreeForegroundChance: real := 0.15
  const TreeMinGap: real := 64.0
  const TreeAttempts: nat := 50
  const InsectDensity: real := 0.0015
  const InsectTileSize: real := 32.0
  const InsectTopBoundary: real := 0.6
  const BuildingSourceTile: real := 128.0
  const BuildingDisplayScale: real := 4.5
  const BuildingGap: real := 32.0
  const BuildingAttempts: nat := 100
  const WorldWidthMin: int := 4000
  const WorldWidthMax: int := 14000
  const VillageMinOffset: real := 0.2
  const VillageMaxOffset: real := 0.8

  datatype BiomeName = Jurassic | Grassland

  /** `AVAILABLE_BIOMES`, in order. */
  const AvailableBiomes: seq<BiomeName> := [Jurassic, Grassland]

  /** `treeDefinitionCount` of both biomes. */
  const TreeDefinitionCount: nat := 8

  datatype GroundPlant = GroundPlant(
    id: string, x: real, y: real, typeIndex: nat, isMirrored: bool,
    swaying: bool, swayStartTime: real, zIndex: int)

  datatype Tree = Tree(id: string, x: real, y: real, typeIndex: nat, isMirrored: bool, zIndex: int)

  datatype Insect = Insect(
    id: string, x: real, y: real, hue: real, angle: real, animationFrame: nat,
    timeOffset: real, anchorX: real, baseY: real,
    drift: real, hSpeed: real, vSpeed: real, hAmp: real, vAmp: real)

  /** A building definition of `AVAILABLE_BIOMES_DETAILS` (its sprite sheet offsets
      are not read by the server). */
  datatype BuildingDef = BuildingDef(id: string, width: real, height: real)

  /** An entry of `placedBuildings`. */
  datatype Building = Building(definitionId: string, x: real, width: real, height: real)

  datatype VillageType = NoVillage | Minimal | Medium | Large

  /** `definition.width` on the `undefined` entry read past the end of the
      definitions list throws a `TypeError`. */
  datatype GenError = UndefinedBuildingDefinition

  /** The outcome of one rejection-sampling search: the accepted position, if any,
      and the index of the next unread value of the stream. */
  datatype Spot = Spot(x: Option<real>, next: nat)

  // ---------------------------------------------------------------------------
  // Ground plants (`generateGroundPlants`)
  // ---------------------------------------------------------------------------

  function PlantsSeed(roomId: string): string { roomId + "-plants" }

  /** `Math.floor(worldWidth * GRASS_DENSITY_FACTOR)` iterations; a negative bound
      runs the loop zero times. */
  function PlantCount(worldWidth: int): nat
  {
    var c := (worldWidth as real * GrassDensity).Floor;
    if c < 0 then 0 else c
  }

  /** The object literal pushed for plant `i`, from its four values. */
  function PlantFrom(i: nat, randX: Fraction, randType: Fraction, randMirrored: Fraction, randZIndex: Fraction, groundY: real, worldWidth: int): GroundPlant
  {
    GroundPlant(
      IndexedId("grass_", i), randX * worldWidth as real, groundY,
      FloorNat(randType * 12.0), randMirrored < 0.5, false, 0.0,
      if randZIndex < 0.7 then -1 else 1)
  }

  /** Plant `i` reads values 4i .. 4i+3: position, type, mirroring, depth. */
  function PlantsFrom(vals: seq<Fraction>, groundY: real, worldWidth: int): seq<GroundPlant>
  {
    seq(PlantCount(worldWidth), i requires 0 <= i =>
      PlantFrom(i, Val(vals, 4 * i), Val(vals, 4 * i + 1), Val(vals, 4 * i + 2), Val(vals, 4 * i + 3), groundY, worldWidth))
  }

  /** The plants of a room: its plant stream, read as far as the loop reads it. */
  function GroundPlantsFor(roomId: string, groundLevel: int, worldWidth: int): seq<GroundPlant>
  {
    PlantsFrom(Draws(PlantsSeed(roomId), 4 * PlantCount(worldWidth)), GameHeight - groundLevel as real, worldWidth)
  }

  method GenerateGroundPlants(roomId: string, groundLevel: int, worldWidth: int) returns (plants: seq<GroundPlant>)
    ensures plants == GroundPlantsFor(roomId, groundLevel, worldWidth)
  {
    var rng := new SeededRandom(roomId + "-plants");
    var groundY := GameHeight - groundLevel as real;
    var numPlants := (worldWidth as real * GrassDensity).Floor;
    ghost var vals := Draws(PlantsSeed(roomId), 4 * PlantCount(worldWidth));
    DrawsPrefix(PlantsSeed(roomId), 4 * PlantCount(worldWidth));
    plants := PlacePlants(rng, vals, numPlants, groundY, worldWidth);
  }

  /** The `for` loop of `generateGroundPlants`: four values per plant. */
  method PlacePlants(rng: SeededRandom, ghost vals: seq<Fraction>, numPlants: int, groundY: real, worldWidth: int)
      returns (plants: seq<GroundPlant>)
    requires rng.Valid() && PrefixOf(vals, rng.source) && rng.drawn == 0
    requires numPlants == (worldWidth as real * GrassDensity).Floor && |vals| == 4 * PlantCount(worldWidth)
    modifies rng
    ensures plants == PlantsFrom(vals, groundY, worldWidth)
  {
    plants := [];
    var i := 0;
    while i < numPlants
      invariant 0 <= i <= PlantCount(worldWidth)
      invariant rng.Valid() && PrefixOf(vals, rng.source) && rng.drawn == 4 * i
      invariant |plants| == i
      invariant forall j :: 0 <= j < i ==>
        plants[j] == PlantFrom(j, Val(vals, 4 * j), Val(vals, 4 * j + 1), Val(vals, 4 * j + 2), Val(vals, 4 * j + 3), groundY, worldWidth)
    {
      var randX := rng.Next(vals);
      assert randX == Val(vals, 4 * i);
      var randType := rng.Next(vals);
      assert randType == Val(vals, 4 * i + 1);
      var randMirrored := rng.Next(vals);
      assert randMirrored == Val(vals, 4 * i + 2);
      var randZIndex := rng.Next(vals);
      assert randZIndex == Val(vals, 4 * i + 3);
      plants := plants + [PlantFrom(i, randX, randType, randMirrored, randZIndex, groundY, worldWidth)];
      i := i + 1;
    }
  }

  /** One plant: not swaying, on the ground line, in front (zIndex 1) exactly when
      its depth value is at least 0.7, a sprite index of at most 12 (below 12
      unless the type value is 1.0), inside the world. */
  lemma PlantFromFacts(i: nat, randX: Fraction, randType: Fraction, randMirrored: Fraction, randZIndex: Fraction, groundY: real, worldWidth: int)
    ensures var p := PlantFrom(i, randX, randType, randMirrored, randZIndex, groundY, worldWidth);
      p.id == IndexedId("grass_", i) && p.y == groundY &&
      !p.swaying && p.swayStartTime == 0.0 &&
      (p.zIndex == -1 <==> randZIndex < 0.7) && (p.zIndex == -1 || p.zIndex == 1) &&
      (p.isMirrored <==> randMirrored < 0.5) &&
      p.typeIndex <= 12 && (randType < 1.0 ==> p.typeIndex < 12) &&
      (worldWidth >= 0 ==> 0.0 <= p.x <= worldWidth as real)
  {
    ScaleBounds(randType, 12.0);
    if worldWidth >= 0 {
      ScaleBounds(randX, worldWidth as real);
    }
  }

  /** What the plant generator promises, for every stream: one plant per slot, slot
      `i` built from values 4i .. 4i+3 as `PlantFromFacts` describes. */
  lemma PlantsFacts(vals: seq<Fraction>, groundY: real, worldWidth: int)
    ensures var plants := PlantsFrom(vals, groundY, worldWidth);
      |plants| == PlantCount(worldWidth) &&
      forall i :: 0 <= i < |plants| ==>
        var p := plants[i];
        p.id == IndexedId("grass_", i) && p.y == groundY &&
        !p.swaying && p.swayStartTime == 0.0 &&
        (p.zIndex == -1 <==> Val(vals, 4 * i + 3) < 0.7) && (p.zIndex == -1 || p.zIndex == 1) &&
        p.typeIndex <= 12 && (Val(vals, 4 * i + 1) < 1.0 ==> p.typeIndex < 12) &&
        (worldWidth >= 0 ==> 0.0 <= p.x <= worldWidth as real)
  {
    var plants := PlantsFrom(vals, groundY, worldWidth);
    forall i | 0 <= i < |plants|
      ensures var p := plants[i];
        p.id == IndexedId("grass_", i) && p.y == groundY &&
        !p.swaying && p.swayStartTime == 0.0 &&
        (p.zIndex == -1 <==> Val(vals, 4 * i + 3) < 0.7) && (p.zIndex == -1 || p.zIndex == 1) &&
        p.typeIndex <= 12 && (Val(vals, 4 * i + 1) < 1.0 ==> p.typeIndex < 12) &&
        (worldWidth >= 0 ==> 0.0 <= p.x <= worldWidth as real)
    {
      PlantFromFacts(i, Val(vals, 4 * i), Val(vals, 4 * i + 1), Val(vals, 4 * i + 2), Val(vals, 4 * i + 3), groundY, worldWidth);
    }
  }

  /** Plant ids are pairwise distinct. */
  lemma PlantIdsDistinct(vals: seq<Fraction>, groundY: real, worldWidth: int, i: nat, j: nat)
    requires i < j < PlantCount(worldWidth)
    ensures PlantsFrom(vals, groundY, worldWidth)[i].id != PlantsFrom(vals, groundY, worldWidth)[j].id
  {
    IndexedIdInjective("grass_", i, j);
  }

  // ---------------------------------------------------------------------------
  // Trees (`generateTrees`)
  // ---------------------------------------------------------------------------

  function TreesSeed(roomId: string): string { roomId + "-trees" }

  /** A candidate trunk position closer than `TREE_MIN_HORIZONTAL_GAP` to a placed tree. */
  predicate TooCloseToTree(x: real, trees: seq<Tree>)
  {
    exists j :: 0 <= j < |trees| && Abs(x - trees[j].x) < TreeMinGap
  }

  /** The inner `for ... of` loop: does the candidate overlap a placed tree? */
  method CheckTreeOverlap(potentialX: real, trees: seq<Tree>) returns (overlaps: bool)
    ensures overlaps == TooCloseToTree(potentialX, trees)
  {
    overlaps := false;
    var j := 0;
    while j < |trees|
      invariant 0 <= j <= |trees|
      invariant !overlaps
      invariant forall m :: 0 <= m < j ==> Abs(potentialX - trees[m].x) >= TreeMinGap
    {
      if Abs(potentialX - trees[j].x) < TreeMinGap {
        overlaps := true;
        break;
      }
      j := j + 1;
    }
  }

  /** The `while (attempts < 50)` search starting at stream index `k`: each attempt
      reads one value; the first candidate clear of all trees is accepted. */
  function FindTreeX(vals: seq<Fraction>, k: nat, attempts: nat, trees: seq<Tree>, worldWidth: int): Spot
    decreases TreeAttempts - attempts
  {
    if attempts >= TreeAttempts then Spot(None, k)
    else
      var potentialX := Val(vals, k) * worldWidth as real;
      if !TooCloseToTree(potentialX, trees) then Spot(Some(potentialX), k + 1)
      else FindTreeX(vals, k + 1, attempts + 1, trees, worldWidth)
  }

  /** The object literal pushed for slot `i` at position `x`, from the three values
      read after the search. */
  function TreeFrom(i: nat, x: real, groundY: real, randType: Fraction, randMirrored: Fraction, randZIndex: Fraction): Tree
  {
    Tree(
      IndexedId("tree_", i), x, groundY,
      FloorNat(randType * TreeDefinitionCount as real),
      randMirrored < 0.5,
      if randZIndex < 1.0 - TreeForegroundChance then -1 else 1)
  }

  /** Slots `i .. n-1` of the outer loop, the stream at index `k`, `trees` placed so
      far. A slot whose search fails is skipped; the next slot still searches. */
  function PlaceTrees(vals: seq<Fraction>, i: nat, n: int, k: nat, trees: seq<Tree>, worldWidth: int, groundY: real): seq<Tree>
    decreases n - i
  {
    if i >= n then trees
    else
      var spot := FindTreeX(vals, k, 0, trees, worldWidth);
      match spot.x
      case None => PlaceTrees(vals, i + 1, n, spot.next, trees, worldWidth, groundY)
      case Some(x) =>
        var t := TreeFrom(i, x, groundY, Val(vals, spot.next), Val(vals, spot.next + 1), Val(vals, spot.next + 2));
        PlaceTrees(vals, i + 1, n, spot.next + 3, trees + [t], worldWidth, groundY)
  }

  /** `roomDensityModifier`, from the first value of the stream. */
  function TreeDensityModifier(r0: Fraction): real
  {
    1.0 + (r0 * 2.0 - 1.0) * TreeDensityVariation
  }

  /** `numTrees`: the number of slots of the outer loop. */
  function TreeSlots(r0: Fraction, worldWidth: int): int
  {
    (worldWidth as real * (TreeDensityBase * TreeDensityModifier(r0))).Floor
  }

  /** At most one slot per unit of width: the density is below 0.024. */
  function MaxTreeSlots(worldWidth: int): nat
  {
    if worldWidth > 0 then worldWidth else 0
  }

  lemma TreeSlotsAtMost(r0: Fraction, worldWidth: int)
    ensures TreeSlots(r0, worldWidth) <= MaxTreeSlots(worldWidth)
  {
    var d := TreeDensityBase * TreeDensityModifier(r0);
    assert 0.0 < d < 1.0;
    var x := worldWidth as real;
    if x > 0.0 {
      MulMonotone(d, 1.0, x);
      assert d * x <= x;
    } else {
      assert x * d <= 0.0;
    }
  }

  /** Enough values for the tree loops: the density value, then per slot every
      attempt of the search and the three values of a placed tree. */
  function TreeReads(worldWidth: int): nat
  {
    1 + MaxTreeSlots(worldWidth) * (TreeAttempts + 3)
  }

  /** A biome without tree definitions (the undefined biome drawn when the biome
      value is 1.0) gets no trees and reads no value. */
  function TreesFrom(vals: seq<Fraction>, groundY: real, worldWidth: int, biome: Option<BiomeName>): seq<Tree>
  {
    if biome.None? then []
    else PlaceTrees(vals, 0, TreeSlots(Val(vals, 0), worldWidth), 1, [], worldWidth, groundY)
  }

  function TreesFor(roomId: string, groundLevel: int, worldWidth: int, biome: Option<BiomeName>): seq<Tree>
  {
    var src := TreesSeed(roomId);
    TreesFrom(Draws(src, TreeReads(worldWidth)), GameHeight - groundLevel as real, worldWidth, biome)
  }

  method GenerateTrees(roomId: string, groundLevel: int, worldWidth: int, biome: Option<BiomeName>) returns (trees: seq<Tree>)
    ensures trees == TreesFor(roomId, groundLevel, worldWidth, biome)
  {
    trees := [];
    var rng := new SeededRandom(roomId + "-trees");
    var groundY := GameHeight - groundLevel as real;
    ghost var vals := Draws(TreesSeed(roomId), TreeReads(worldWidth));
    assert TreesFor(roomId, groundLevel, worldWidth, biome) == TreesFrom(vals, groundY, worldWidth, biome);
    if biome.None? {
      return;
    }
    DrawsPrefix(TreesSeed(roomId), TreeReads(worldWidth));
    trees := PlaceTreesFrom(rng, vals, worldWidth, groundY);
  }

  /** The density draw followed by the slot loop, on a fresh generator. */
  method PlaceTreesFrom(rng: SeededRandom, ghost vals: seq<Fraction>, worldWidth: int, groundY: real)
      returns (trees: seq<Tree>)
    requires rng.Valid() && PrefixOf(vals, rng.source) && rng.drawn == 0
    requires |vals| == TreeReads(worldWidth)
    modifies rng
    ensures trees == PlaceTrees(vals, 0, TreeSlots(Val(vals, 0), worldWidth), 1, [], worldWidth, groundY)
  {
    var r0 := rng.Next(vals);
    var numTrees := TreeSlots(r0, worldWidth);
    TreeSlotsAtMost(r0, worldWidth);
    trees := PlaceTreeSlots(rng, vals, numTrees, worldWidth, groundY);
  }

  /** The outer `for` loop over the `numTrees` slots. */
  method PlaceTreeSlots(rng: SeededRandom, ghost vals: seq<Fraction>, numTrees: int, worldWidth: int, groundY: real)
      returns (trees: seq<Tree>)
    requires rng.Valid() && PrefixOf(vals, rng.source) && rng.drawn == 1
    requires numTrees <= MaxTreeSlots(worldWidth) && |vals| == TreeReads(worldWidth)
    modifies rng
    ensures trees == PlaceTrees(vals, 0, numTrees, 1, [], worldWidth, groundY)
  {
    trees := [];
    ghost var final := PlaceTrees(vals, 0, numTrees, 1, [], worldWidth, groundY);
    var i := 0;
    while i < numTrees
      invariant 0 <= i && (numTrees > 0 ==> i <= numTrees)
      invariant rng.Valid() && PrefixOf(vals, rng.source)
      invariant rng.drawn <= 1 + i * (TreeAttempts + 3)
      invariant PlaceTrees(vals, i, numTrees, rng.drawn, trees, worldWidth, groundY) == final
      decreases numTrees - i
    {
      trees := PlaceTreeSlot(rng, vals, i, numTrees, trees, worldWidth, groundY);
      i := i + 1;
    }
  }

  /** One pass of the outer loop: search a spot, and on success read the tree's
      three values and push it. */
  method PlaceTreeSlot(rng: SeededRandom, ghost vals: seq<Fraction>, i: nat, numTrees: int, trees: seq<Tree>, worldWidth: int, groundY: real)
      returns (trees': seq<Tree>)
    requires i < numTrees
    requires rng.Valid() && PrefixOf(vals, rng.source) && rng.drawn + TreeAttempts + 3 <= |vals|
    modifies rng
    ensures rng.Valid() && old(rng.drawn) <= rng.drawn <= old(rng.drawn) + TreeAttempts + 3
    ensures PlaceTrees(vals, i + 1, numTrees, rng.drawn, trees', worldWidth, groundY) ==
      PlaceTrees(vals, i, numTrees, old(rng.drawn), trees, worldWidth, groundY)
  {
    trees' := trees;
    ghost var k0 := rng.drawn;
    var chosenX := SearchTreeSpot(rng, vals, trees, worldWidth);
    PlaceTreesStep(vals, i, numTrees, k0, trees, worldWidth, groundY);
    if chosenX.Some? {
      ghost var k1 := rng.drawn;
      var randType := rng.Next(vals);
      var randMirrored := rng.Next(vals);
      var randZIndex := rng.Next(vals);
      assert randType == Val(vals, k1) && randMirrored == Val(vals, k1 + 1) && randZIndex == Val(vals, k1 + 2);
      trees' := trees + [TreeFrom(i, chosenX.value, groundY, randType, randMirrored, randZIndex)];
    }
  }

  /** The `while (attempts < 50)` loop, with the candidate overlap check. */
  method SearchTreeSpot(rng: SeededRandom, ghost vals: seq<Fraction>, trees: seq<Tree>, worldWidth: int) returns (chosenX: Option<real>)
    requires rng.Valid() && rng.drawn + TreeAttempts <= |vals|
    requires PrefixOf(vals, rng.source)
    modifies rng
    ensures rng.Valid() && old(rng.drawn) <= rng.drawn <= old(rng.drawn) + TreeAttempts
    ensures FindTreeX(vals, old(rng.drawn), 0, trees, worldWidth) == Spot(chosenX, rng.drawn)
  {
    ghost var spot := FindTreeX(vals, rng.drawn, 0, trees, worldWidth);
    ghost var k0 := rng.drawn;
    chosenX := None;
    var attempts := 0;
    while attempts < TreeAttempts
      invariant 0 <= attempts <= TreeAttempts
      invariant rng.Valid() && rng.drawn == k0 + attempts
      invariant spot == FindTreeX(vals, rng.drawn, attempts, trees, worldWidth)
    {
      ghost var k := rng.drawn;
      var potentialX, overlaps := TryTreeSpot(rng, vals, trees, worldWidth);
      FindTreeXStep(vals, k, attempts, trees, worldWidth);
      if !overlaps {
        chosenX := Some(potentialX);
        assert spot == Spot(chosenX, rng.drawn);
        return;
      }
      assert spot == FindTreeX(vals, k + 1, attempts + 1, trees, worldWidth);
      attempts := attempts + 1;
    }
    assert spot == Spot(None, rng.drawn);
  }

  /** One attempt: a candidate position from the next value, and its overlap check. */
  method TryTreeSpot(rng: SeededRandom, ghost vals: seq<Fraction>, trees: seq<Tree>, worldWidth: int) returns (potentialX: real, overlaps: bool)
    requires rng.Valid() && rng.drawn < |vals| && PrefixOf(vals, rng.source)
    modifies rng
    ensures rng.Valid() && rng.drawn == old(rng.drawn) + 1
    ensures potentialX == Val(vals, old(rng.drawn)) * worldWidth as real
    ensures overlaps == TooCloseToTree(potentialX, trees)
  {
    var r := rng.Next(vals);
    potentialX := r * worldWidth as real;
    overlaps := CheckTreeOverlap(potentialX, trees);
  }

  /** One attempt of the tree search. */
  lemma FindTreeXStep(vals: seq<Fraction>, k: nat, attempts: nat, trees: seq<Tree>, worldWidth: int)
    requires attempts < TreeAttempts
    ensures FindTreeX(vals, k, attempts, trees, worldWidth) ==
      if !TooCloseToTree(Val(vals, k) * worldWidth as real, trees) then Spot(Some(Val(vals, k) * worldWidth as real), k + 1)
      else FindTreeX(vals, k + 1, attempts + 1, trees, worldWidth)
  {
  }

  /** One slot of the outer tree loop. */
  lemma PlaceTreesStep(vals: seq<Fraction>, i: nat, n: int, k: nat, trees: seq<Tree>, worldWidth: int, groundY: real)
    requires i < n
    ensures var spot := FindTreeX(vals, k, 0, trees, worldWidth);
      PlaceTrees(vals, i, n, k, trees, worldWidth, groundY) ==
      if spot.x.None? then PlaceTrees(vals, i + 1, n, spot.next, trees, worldWidth, groundY)
      else PlaceTrees(vals, i + 1, n, spot.next + 3,
        trees + [TreeFrom(i, spot.x.value, groundY, Val(vals, spot.next), Val(vals, spot.next + 1), Val(vals, spot.next + 2))], worldWidth, groundY)
  {
  }

  /** Trunks at least `TREE_MIN_HORIZONTAL_GAP` apart, pairwise. */
  ghost predicate TreesSpaced(trees: seq<Tree>)
  {
    forall a, b :: 0 <= a < b < |trees| ==> Abs(trees[a].x - trees[b].x) >= TreeMinGap
  }

  /** `slots[a]` is the slot of the outer loop that placed tree `a`: each id is
      `tree_` followed by its slot, and slots increase and stay below `i`. */
  ghost predicate TreeSlotsBelow(trees: seq<Tree>, slots: seq<nat>, i: nat)
  {
    |slots| == |trees| &&
    (forall a :: 0 <= a < |trees| ==> slots[a] < i && trees[a].id == IndexedId("tree_", slots[a])) &&
    (forall a, b :: 0 <= a < b < |slots| ==> slots[a] < slots[b])
  }

  ghost predicate TreeIdsDistinct(trees: seq<Tree>)
  {
    forall a, b :: 0 <= a < b < |trees| ==> trees[a].id != trees[b].id
  }

  /** A tree on the ground line, front or back, with a sprite index of at most the
      definition count, inside the world when the width is non-negative. */
  ghost predicate TreeWellFormed(t: Tree, groundY: real, worldWidth: int)
  {
    t.y == groundY && (t.zIndex == -1 || t.zIndex == 1) && t.typeIndex <= TreeDefinitionCount &&
    (worldWidth >= 0 ==> 0.0 <= t.x <= worldWidth as real)
  }

  ghost predicate AllTreesWellFormed(trees: seq<Tree>, groundY: real, worldWidth: int)
  {
    forall a :: 0 <= a < |trees| ==> TreeWellFormed(trees[a], groundY, worldWidth)
  }

  /** A successful search returns a candidate clear of every placed tree, inside the world. */
  lemma {:induction false} FindTreeXClear(vals: seq<Fraction>, k: nat, attempts: nat, trees: seq<Tree>, worldWidth: int)
    ensures var spot := FindTreeX(vals, k, attempts, trees, worldWidth);
      spot.next >= k &&
      (spot.x.Some? ==>
         !TooCloseToTree(spot.x.value, trees) &&
         (worldWidth >= 0 ==> 0.0 <= spot.x.value <= worldWidth as real))
    decreases TreeAttempts - attempts
  {
    if attempts < TreeAttempts {
      if !TooCloseToTree(Val(vals, k) * worldWidth as real, trees) {
        FoundTreeX(vals, k, attempts, trees, worldWidth);
      } else {
        FindTreeXClear(vals, k + 1, attempts + 1, trees, worldWidth);
        FindTreeXStep(vals, k, attempts, trees, worldWidth);
      }
    }
  }

  /** A clear first candidate is the spot found, and it lies inside the world. */
  lemma FoundTreeX(vals: seq<Fraction>, k: nat, attempts: nat, trees: seq<Tree>, worldWidth: int)
    requires attempts < TreeAttempts && !TooCloseToTree(Val(vals, k) * worldWidth as real, trees)
    ensures var x := Val(vals, k) * worldWidth as real;
      FindTreeX(vals, k, attempts, trees, worldWidth) == Spot(Some(x), k + 1) &&
      (worldWidth >= 0 ==> 0.0 <= x <= worldWidth as real)
  {
    ScaleInside(Val(vals, k), worldWidth);
  }

  /** A value of the stream times the world width lies inside the world. */
  lemma ScaleInside(r: Fraction, worldWidth: int)
    ensures worldWidth >= 0 ==> 0.0 <= r * worldWidth as real <= worldWidth as real
  {
    if worldWidth >= 0 {
      ScaleBounds(r, worldWidth as real);
    }
  }

  /** Appending a tree clear of all placed ones keeps the spacing. */
  lemma AppendTreeSpaced(trees: seq<Tree>, t: Tree)
    requires TreesSpaced(trees) && !TooCloseToTree(t.x, trees)
    ensures TreesSpaced(trees + [t])
  {
    var trees' := trees + [t];
    forall a, b | 0 <= a < b < |trees'|
      ensures Abs(trees'[a].x - trees'[b].x) >= TreeMinGap
    {
      if b == |trees| {
        assert !(Abs(t.x - trees[a].x) < TreeMinGap);
      }
    }
  }

  /** Ids built from increasing slots are pairwise distinct. */
  lemma SlotIdsDistinct(trees: seq<Tree>, slots: seq<nat>, i: nat)
    requires TreeSlotsBelow(trees, slots, i)
    ensures TreeIdsDistinct(trees)
  {
    forall a, b | 0 <= a < b < |trees|
      ensures trees[a].id != trees[b].id
    {
      IndexedIdInjective("tree_", slots[a], slots[b]);
    }
  }

  /** The outer tree loop keeps the trunks apart. */
  lemma {:induction false} PlaceTreesSpaced(vals: seq<Fraction>, i: nat, n: int, k: nat, trees: seq<Tree>, worldWidth: int, groundY: real)
    requires TreesSpaced(trees)
    ensures TreesSpaced(PlaceTrees(vals, i, n, k, trees, worldWidth, groundY))
    decreases n - i
  {
    if i < n {
      var spot := FindTreeX(vals, k, 0, trees, worldWidth);
      FindTreeXClear(vals, k, 0, trees, worldWidth);
      match spot.x
      case None =>
        PlaceTreesSpaced(vals, i + 1, n, spot.next, trees, worldWidth, groundY);
      case Some(x) =>
        var t := TreeFrom(i, x, groundY, Val(vals, spot.next), Val(vals, spot.next + 1), Val(vals, spot.next + 2));
        AppendTreeSpaced(trees, t);
        PlaceTreesSpaced(vals, i + 1, n, spot.next + 3, trees + [t], worldWidth, groundY);
    }
  }

  /** A tree built from a position inside the world is well formed. */
  lemma TreeFromWellFormed(i: nat, x: real, groundY: real, randType: Fraction, randMirrored: Fraction, randZIndex: Fraction, worldWidth: int)
    requires worldWidth >= 0 ==> 0.0 <= x <= worldWidth as real
    ensures TreeWellFormed(TreeFrom(i, x, groundY, randType, randMirrored, randZIndex), groundY, worldWidth)
  {
    ScaleBounds(randType, TreeDefinitionCount as real);
  }

  lemma AppendTreeWellFormed(trees: seq<Tree>, t: Tree, groundY: real, worldWidth: int)
    requires AllTreesWellFormed(trees, groundY, worldWidth) && TreeWellFormed(t, groundY, worldWidth)
    ensures AllTreesWellFormed(trees + [t], groundY, worldWidth)
  {
    var trees' := trees + [t];
    forall a | 0 <= a < |trees'|
      ensures TreeWellFormed(trees'[a], groundY, worldWidth)
    {
      if a < |trees| {
        assert trees'[a] == trees[a];
      }
    }
  }

  /** Every tree the outer loop places is well formed. */
  lemma {:induction false} PlaceTreesWellFormed(vals: seq<Fraction>, i: nat, n: int, k: nat, trees: seq<Tree>, worldWidth: int, groundY: real)
    requires AllTreesWellFormed(trees, groundY, worldWidth)
    ensures AllTreesWellFormed(PlaceTrees(vals, i, n, k, trees, worldWidth, groundY), groundY, worldWidth)
    decreases n - i
  {
    if i < n {
      var spot := FindTreeX(vals, k, 0, trees, worldWidth);
      FindTreeXClear(vals, k, 0, trees, worldWidth);
      match spot.x
      case None =>
        PlaceTreesWellFormed(vals, i + 1, n, spot.next, trees, worldWidth, groundY);
      case Some(x) =>
        var t := TreeFrom(i, x, groundY, Val(vals, spot.next), Val(vals, spot.next + 1), Val(vals, spot.next + 2));
        TreeFromWellFormed(i, x, groundY, Val(vals, spot.next), Val(vals, spot.next + 1), Val(vals, spot.next + 2), worldWidth);
        AppendTreeWellFormed(trees, t, groundY, worldWidth);
        PlaceTreesWellFormed(vals, i + 1, n, spot.next + 3, trees + [t], worldWidth, groundY);
    }
  }

  /** A slot bound can be raised. */
  lemma SlotsBelowRaise(trees: seq<Tree>, slots: seq<nat>, i: nat, j: nat)
    requires TreeSlotsBelow(trees, slots, i) && i <= j
    ensures TreeSlotsBelow(trees, slots, j)
  {
  }

  /** The tree of slot `i` goes after the trees of earlier slots. */
  lemma AppendTreeSlot(trees: seq<Tree>, slots: seq<nat>, i: nat, t: Tree)
    requires TreeSlotsBelow(trees, slots, i) && t.id == IndexedId("tree_", i)
    ensures TreeSlotsBelow(trees + [t], slots + [i], i + 1)
  {
    var trees', slots' := trees + [t], slots + [i];
    forall a | 0 <= a < |trees'|
      ensures slots'[a] < i + 1 && trees'[a].id == IndexedId("tree_", slots'[a])
    {
      if a < |trees| {
        assert trees'[a] == trees[a] && slots'[a] == slots[a];
      }
    }
  }

  /** One slot of the outer loop: the trees stay as they are, or tree `i` is appended. */
  lemma PlaceTreesSlot(vals: seq<Fraction>, i: nat, n: int, k: nat, trees: seq<Tree>, worldWidth: int, groundY: real)
      returns (next: nat, trees': seq<Tree>)
    requires i < n
    ensures PlaceTrees(vals, i, n, k, trees, worldWidth, groundY) == PlaceTrees(vals, i + 1, n, next, trees', worldWidth, groundY)
    ensures trees' == trees ||
      (|trees'| == |trees| + 1 && trees' == trees + [trees'[|trees|]] && trees'[|trees|].id == IndexedId("tree_", i))
  {
    var spot := FindTreeX(vals, k, 0, trees, worldWidth);
    PlaceTreesStep(vals, i, n, k, trees, worldWidth, groundY);
    next, trees' := spot.next, trees;
    if spot.x.Some? {
      var t := TreeFrom(i, spot.x.value, groundY, Val(vals, spot.next), Val(vals, spot.next + 1), Val(vals, spot.next + 2));
      next, trees' := spot.next + 3, trees + [t];
    }
  }

  /** Trees get the ids of their slots, in increasing slot order. */
  lemma {:induction false} PlaceTreesIds(vals: seq<Fraction>, i: nat, n: int, k: nat, trees: seq<Tree>, worldWidth: int, groundY: real, slots: seq<nat>)
      returns (slots': seq<nat>)
    requires TreeSlotsBelow(trees, slots, i)
    ensures TreeSlotsBelow(PlaceTrees(vals, i, n, k, trees, worldWidth, groundY), slots', if n > i then n else i)
    decreases n - i
  {
    if i >= n {
      slots' := slots;
    } else {
      var next, trees' := PlaceTreesSlot(vals, i, n, k, trees, worldWidth, groundY);
      if trees' == trees {
        SlotsBelowRaise(trees, slots, i, i + 1);
        slots' := PlaceTreesIds(vals, i + 1, n, next, trees, worldWidth, groundY, slots);
      } else {
        AppendTreeSlot(trees, slots, i, trees'[|trees|]);
        slots' := PlaceTreesIds(vals, i + 1, n, next, trees', worldWidth, groundY, slots + [i]);
      }
    }
  }

  /** Each slot adds at most one tree. */
  lemma {:induction false} PlaceTreesCount(vals: seq<Fraction>, i: nat, n: int, k: nat, trees: seq<Tree>, worldWidth: int, groundY: real)
    ensures var placed := PlaceTrees(vals, i, n, k, trees, worldWidth, groundY);
      |trees| <= |placed| <= |trees| + (if n > i then n - i else 0)
    decreases n - i
  {
    if i < n {
      var next, trees' := PlaceTreesSlot(vals, i, n, k, trees, worldWidth, groundY);
      PlaceTreesCount(vals, i + 1, n, next, trees', worldWidth, groundY);
    }
  }

  /** What the tree generator promises, for every stream: trunks pairwise at least
      64 apart, distinct ids, well-formed trees, no more trees than slots, and none
      for an undefined biome. */
  lemma TreesFacts(vals: seq<Fraction>, groundY: real, worldWidth: int, biome: Option<BiomeName>)
    ensures var trees := TreesFrom(vals, groundY, worldWidth, biome);
      var n := TreeSlots(Val(vals, 0), worldWidth);
      TreesSpaced(trees) && TreeIdsDistinct(trees) && AllTreesWellFormed(trees, groundY, worldWidth) &&
      (biome.None? ==> trees == []) &&
      |trees| <= (if n > 0 then n else 0)
  {
    if biome.Some? {
      var n := TreeSlots(Val(vals, 0), worldWidth);
      PlaceTreesSpaced(vals, 0, n, 1, [], worldWidth, groundY);
      PlaceTreesWellFormed(vals, 0, n, 1, [], worldWidth, groundY);
      PlaceTreesCount(vals, 0, n, 1, [], worldWidth, groundY);
      var slots := PlaceTreesIds(vals, 0, n, 1, [], worldWidth, groundY, []);
      SlotIdsDistinct(TreesFrom(vals, groundY, worldWidth, biome), slots, if n > 0 then n else 0);
    }
  }

  /** The density modifier lies in [0.45, 1.55]. */
  lemma TreeDensityModifierBounds(r0: Fraction)
    ensures 0.45 <= TreeDensityModifier(r0) <= 1.55
  {
  }

  // ---------------------------------------------------------------------------
  // Insects (`generateInsects`)
  // ---------------------------------------------------------------------------

  function InsectsSeed(roomId: string): string { roomId + "-insects" }

  /** `Math.floor(worldWidth * INSECT_DENSITY_FACTOR)` iterations. */
  function InsectCount(worldWidth: int): nat
  {
    var c := (worldWidth as real * InsectDensity).Floor;
    if c < 0 then 0 else c
  }

  /** `minY`: `DEDICATED_GAME_HEIGHT * (INSECT_TOP_BOUNDARY_FACTOR - 2)`, which is
      -1512, far above the screen (the tick clamps to a different bound). */
  const InsectMinY: real := GameHeight * (InsectTopBoundary - 2.0)

  /** `maxY`: just above the ground. */
  function InsectMaxY(groundLevel: int): real
  {
    GameHeight - groundLevel as real - InsectTileSize
  }

  /** The object literal pushed for insect `i`, from its ten values in the order
      the literal reads them. `timeOffset` appears twice in the literal: both
      values are read and the second (`rTime`) is kept; `rTimeFirst` is unused. */
  function InsectFrom(i: nat, rX: Fraction, rY: Fraction, rHue: Fraction, rTimeFirst: Fraction, rTime: Fraction,
                      rDrift: Fraction, rHSpeed: Fraction, rVSpeed: Fraction, rHAmp: Fraction, rVAmp: Fraction,
                      groundLevel: int, worldWidth: int): Insect
  {
    var startX := InsectStartX(rX, worldWidth);
    var startY := InsectStartY(rY, groundLevel);
    Insect(
      IndexedId("insect_", i), startX, startY, rHue * 160.0, 0.0, 0,
      rTime * 2000.0, startX, startY,
      (rDrift - 0.5) * 1.5, 0.8 + rHSpeed * 0.3, 0.8 + rVSpeed * 0.2,
      80.0 + rHAmp * 140.0, -20.0 + rVAmp * -180.0)
  }

  /** `startX`: a point of the world's width. */
  function InsectStartX(rX: Fraction, worldWidth: int): (x: real)
    ensures worldWidth >= 0 ==> 0.0 <= x <= worldWidth as real
  {
    ScaleInside(rX, worldWidth);
    rX * worldWidth as real
  }

  /** `startY`: a point of the band between `minY` and `maxY`. */
  function InsectStartY(rY: Fraction, groundLevel: int): (y: real)
    ensures InsectMinY <= InsectMaxY(groundLevel) ==> InsectMinY <= y <= InsectMaxY(groundLevel)
  {
    InsectYInside(rY, groundLevel);
    InsectMinY + rY * (InsectMaxY(groundLevel) - InsectMinY)
  }

  /** Insect `i` reads values 10i .. 10i+9. */
  function InsectsFrom(vals: seq<Fraction>, groundLevel: int, worldWidth: int): seq<Insect>
  {
    seq(InsectCount(worldWidth), i requires 0 <= i =>
      InsectFrom(i, Val(vals, 10 * i), Val(vals, 10 * i + 1), Val(vals, 10 * i + 2), Val(vals, 10 * i + 3),
        Val(vals, 10 * i + 4), Val(vals, 10 * i + 5), Val(vals, 10 * i + 6), Val(vals, 10 * i + 7),
        Val(vals, 10 * i + 8), Val(vals, 10 * i + 9), groundLevel, worldWidth))
  }

  function InsectsFor(roomId: string, groundLevel: int, worldWidth: int): seq<Insect>
  {
    InsectsFrom(Draws(InsectsSeed(roomId), 10 * InsectCount(worldWidth)), groundLevel, worldWidth)
  }

  method GenerateInsects(roomId: string, groundLevel: int, worldWidth: int) returns (insects: seq<Insect>)
    ensures insects == InsectsFor(roomId, groundLevel, worldWidth)
  {
    var rng := new SeededRandom(roomId + "-insects");
    var numInsects := (worldWidth as real * InsectDensity).Floor;
    ghost var vals := Draws(InsectsSeed(roomId), 10 * InsectCount(worldWidth));
    DrawsPrefix(InsectsSeed(roomId), 10 * InsectCount(worldWidth));
    insects := PlaceInsects(rng, vals, numInsects, groundLevel, worldWidth);
  }

  /** The `for` loop of `generateInsects`: ten values per insect. */
  method PlaceInsects(rng: SeededRandom, ghost vals: seq<Fraction>, numInsects: int, groundLevel: int, worldWidth: int)
      returns (insects: seq<Insect>)
    requires rng.Valid() && PrefixOf(vals, rng.source) && rng.drawn == 0
    requires numInsects == (worldWidth as real * InsectDensity).Floor && |vals| == 10 * InsectCount(worldWidth)
    modifies rng
    ensures insects == InsectsFrom(vals, groundLevel, worldWidth)
  {
    insects := [];
    var i := 0;
    while i < numInsects
      invariant 0 <= i <= InsectCount(worldWidth)
      invariant rng.Valid() && PrefixOf(vals, rng.source) && rng.drawn == 10 * i
      invariant |insects| == i
      invariant forall j :: 0 <= j < i ==> insects[j] == InsectsFrom(vals, groundLevel, worldWidth)[j]
    {
      var insect := NextInsect(rng, vals, i, groundLevel, worldWidth);
      insects := insects + [insect];
      i := i + 1;
    }
  }

  /** One pass of the insect loop: ten calls of the generator. */
  method NextInsect(rng: SeededRandom, ghost vals: seq<Fraction>, i: nat, groundLevel: int, worldWidth: int)
      returns (insect: Insect)
    requires i < InsectCount(worldWidth) && |vals| == 10 * InsectCount(worldWidth)
    requires rng.Valid() && PrefixOf(vals, rng.source) && rng.drawn == 10 * i
    modifies rng
    ensures rng.Valid() && rng.drawn == 10 * i + 10
    ensures insect == InsectsFrom(vals, groundLevel, worldWidth)[i]
  {
    var rX := rng.Next(vals);
    var rY := rng.Next(vals);
    var rHue := rng.Next(vals);
    var rTimeFirst := rng.Next(vals);
    var rTime := rng.Next(vals);
    var rDrift := rng.Next(vals);
    var rHSpeed := rng.Next(vals);
    var rVSpeed := rng.Next(vals);
    var rHAmp := rng.Next(vals);
    var rVAmp := rng.Next(vals);
    insect := InsectFrom(i, rX, rY, rHue, rTimeFirst, rTime, rDrift, rHSpeed, rVSpeed, rHAmp, rVAmp, groundLevel, worldWidth);
  }

  /** One insect: it starts at its anchor, unrotated, on frame 0, with each field in
      the range its formula gives, and its time offset from the second of the two
      values read for it. */
  lemma InsectFromFacts(i: nat, rX: Fraction, rY: Fraction, rHue: Fraction, rTimeFirst: Fraction, rTime: Fraction,
                        rDrift: Fraction, rHSpeed: Fraction, rVSpeed: Fraction, rHAmp: Fraction, rVAmp: Fraction,
                        groundLevel: int, worldWidth: int)
    ensures var b := InsectFrom(i, rX, rY, rHue, rTimeFirst, rTime, rDrift, rHSpeed, rVSpeed, rHAmp, rVAmp, groundLevel, worldWidth);
      b.id == IndexedId("insect_", i) && b.anchorX == b.x && b.baseY == b.y &&
      b.angle == 0.0 && b.animationFrame == 0 &&
      b.timeOffset == rTime * 2000.0 && 0.0 <= b.timeOffset <= 2000.0 &&
      (worldWidth >= 0 ==> 0.0 <= b.x <= worldWidth as real) &&
      (InsectMinY <= InsectMaxY(groundLevel) ==> InsectMinY <= b.y <= InsectMaxY(groundLevel)) &&
      0.0 <= b.hue <= 160.0 && -0.75 <= b.drift <= 0.75 &&
      0.8 <= b.hSpeed <= 1.1 && 0.8 <= b.vSpeed <= 1.0 &&
      80.0 <= b.hAmp <= 220.0 && -200.0 <= b.vAmp <= -20.0
  {
  }

  /** `startY` lies between `minY` and `maxY` whenever that band is not empty. */
  lemma InsectYInside(rY: Fraction, groundLevel: int)
    ensures var y := InsectMinY + rY * (InsectMaxY(groundLevel) - InsectMinY);
      InsectMinY <= InsectMaxY(groundLevel) ==> InsectMinY <= y <= InsectMaxY(groundLevel)
  {
    if InsectMinY <= InsectMaxY(groundLevel) {
      InterpolateBetween(rY, InsectMinY, InsectMaxY(groundLevel));
    }
  }

  /** What the insect generator promises, for every stream: one insect per slot,
      insect `i` built from values 10i .. 10i+9 as `InsectFromFacts` describes. */
  lemma InsectsFacts(vals: seq<Fraction>, groundLevel: int, worldWidth: int)
    ensures var insects := InsectsFrom(vals, groundLevel, worldWidth);
      |insects| == InsectCount(worldWidth) &&
      forall i :: 0 <= i < |insects| ==>
        var b := insects[i];
        b.id == IndexedId("insect_", i) && b.anchorX == b.x && b.baseY == b.y &&
        b.angle == 0.0 && b.animationFrame == 0 &&
        b.timeOffset == Val(vals, 10 * i + 4) * 2000.0 &&
        (worldWidth >= 0 ==> 0.0 <= b.x <= worldWidth as real) &&
        (InsectMinY <= InsectMaxY(groundLevel) ==> InsectMinY <= b.y <= InsectMaxY(groundLevel))
  {
    var insects := InsectsFrom(vals, groundLevel, worldWidth);
    forall i | 0 <= i < |insects|
      ensures var b := insects[i];
        b.id == IndexedId("insect_", i) && b.anchorX == b.x && b.baseY == b.y &&
        b.angle == 0.0 && b.animationFrame == 0 &&
        b.timeOffset == Val(vals, 10 * i + 4) * 2000.0 &&
        (worldWidth >= 0 ==> 0.0 <= b.x <= worldWidth as real) &&
        (InsectMinY <= InsectMaxY(groundLevel) ==> InsectMinY <= b.y <= InsectMaxY(groundLevel))
    {
      InsectFromFacts(i, Val(vals, 10 * i), Val(vals, 10 * i + 1), Val(vals, 10 * i + 2), Val(vals, 10 * i + 3),
        Val(vals, 10 * i + 4), Val(vals, 10 * i + 5), Val(vals, 10 * i + 6), Val(vals, 10 * i + 7),
        Val(vals, 10 * i + 8), Val(vals, 10 * i + 9), groundLevel, worldWidth);
    }
  }

  /** Insect ids are pairwise distinct. */
  lemma InsectIdsDistinct(vals: seq<Fraction>, groundLevel: int, worldWidth: int, i: nat, j: nat)
    requires i < j < InsectCount(worldWidth)
    ensures InsectsFrom(vals, groundLevel, worldWidth)[i].id != InsectsFrom(vals, groundLevel, worldWidth)[j].id
  {
    IndexedIdInjective("insect_", i, j);
  }
}
