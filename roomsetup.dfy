/** The world a new room gets (the generating part of server.js's `createRoom`
    handler): the stream seeded with the room id gives, in order, the biome, the
    world width, the village type and, when there is a village, its centre; then
    the building layout and the three decoration generators run on their own
    streams. */
module RoomSetup {
  import opened Common
  import opened Random
  import opened WorldGen
  import opened Buildings

  /** An entry of `VILLAGE_PROBABILITIES`. */
  datatype VillageOption = VillageOption(villageType: VillageType, weight: nat)

  const VillageProbabilities: seq<VillageOption> :=
    [VillageOption(NoVillage, 40), VillageOption(Minimal, 32), VillageOption(Medium, 20), VillageOption(Large, 8)]

  /** The weights of the first `i` options. */
  function CumulativeWeight(i: nat): nat
    requires i <= |VillageProbabilities|
  {
    if i == 0 then 0 else CumulativeWeight(i - 1) + VillageProbabilities[i - 1].weight
  }

  /** `totalWeight`, the `reduce` over all options. */
  function TotalWeight(): (total: nat)
    ensures total == 100
  {
    assert CumulativeWeight(1) == 40 && CumulativeWeight(2) == 72 && CumulativeWeight(3) == 92;
    CumulativeWeight(|VillageProbabilities|)
  }

  /** The option the `for ... of` loop stops at for `randomNum`, looking from option
      `i` on: the first whose cumulative weight exceeds it; `none` when none does. */
  function FirstBucket(randomNum: real, i: nat): VillageType
    requires i <= |VillageProbabilities|
    decreases |VillageProbabilities| - i
  {
    if i == |VillageProbabilities| then NoVillage
    else if randomNum < CumulativeWeight(i + 1) as real then VillageProbabilities[i].villageType
    else FirstBucket(randomNum, i + 1)
  }

  /** The buckets written out: [0, 40) none, [40, 72) minimal, [72, 92) medium,
      [92, 100) large, and the default `none` from 100 on. */
  lemma {:induction false} FirstBucketThresholds(x: real)
    requires x >= 0.0
    ensures FirstBucket(x, 0) ==
      if x < 40.0 then NoVillage
      else if x < 72.0 then Minimal
      else if x < 92.0 then Medium
      else if x < 100.0 then Large
      else NoVillage
  {
    assert CumulativeWeight(1) == 40 && CumulativeWeight(2) == 72;
    assert CumulativeWeight(3) == 92 && CumulativeWeight(4) == 100;
  }

  /** The selection loop: subtract each weight until the rest falls below one. */
  method SelectVillageType(randomNum0: real) returns (selected: VillageType)
    ensures selected == FirstBucket(randomNum0, 0)
  {
    var randomNum := randomNum0;
    selected := NoVillage;
    var i := 0;
    while i < |VillageProbabilities|
      invariant 0 <= i <= |VillageProbabilities|
      invariant randomNum == randomNum0 - CumulativeWeight(i) as real
      invariant FirstBucket(randomNum0, 0) == FirstBucket(randomNum0, i)
    {
      var option := VillageProbabilities[i];
      if randomNum < option.weight as real {
        selected := option.villageType;
        return;
      }
      randomNum := randomNum - option.weight as real;
      i := i + 1;
    }
  }

  /** `AVAILABLE_BIOMES[Math.floor(r * 2)]`: nothing for index 2. */
  function BiomeFromDraw(r: Fraction): (biome: Option<BiomeName>)
  {
    ScaleBounds(r, 2.0);
    var index := FloorNat(r * 2.0);
    if index < |AvailableBiomes| then Some(AvailableBiomes[index]) else None
  }

  lemma BiomeFromDrawFacts(r: Fraction)
    ensures BiomeFromDraw(r).None? <==> r == 1.0
    ensures r < 0.5 ==> BiomeFromDraw(r) == Some(Jurassic)
    ensures 0.5 <= r < 1.0 ==> BiomeFromDraw(r) == Some(Grassland)
  {
    ScaleBounds(r, 2.0);
  }

  /** `Math.floor(r * (WORLD_WIDTH_MAX - WORLD_WIDTH_MIN + 1)) + WORLD_WIDTH_MIN`. */
  function WorldWidthFromDraw(r: Fraction): int
  {
    FloorNat(r * (WorldWidthMax - WorldWidthMin + 1) as real) + WorldWidthMin
  }

  /** The width lies in [4000, 14000], except 14001 for the value 1.0. */
  lemma WorldWidthBounds(r: Fraction)
    ensures WorldWidthMin <= WorldWidthFromDraw(r) <= WorldWidthMax + 1
    ensures r < 1.0 ==> WorldWidthFromDraw(r) <= WorldWidthMax
    ensures WorldWidthFromDraw(r) == WorldWidthMax + 1 <==> r == 1.0
  {
    ScaleBounds(r, 10001.0);
  }

  /** `minX + r * (maxX - minX)` with `minX` and `maxX` at 0.2 and 0.8 of the width. */
  function VillageXFromDraw(r: Fraction, worldWidth: int): real
  {
    var minX := worldWidth as real * VillageMinOffset;
    var maxX := worldWidth as real * VillageMaxOffset;
    minX + r * (maxX - minX)
  }

  lemma VillageXBounds(r: Fraction, worldWidth: int)
    requires worldWidth >= 0
    ensures worldWidth as real * VillageMinOffset <= VillageXFromDraw(r, worldWidth) <= worldWidth as real * VillageMaxOffset
  {
    var minX := worldWidth as real * VillageMinOffset;
    var maxX := worldWidth as real * VillageMaxOffset;
    var len := maxX - minX;
    assert len == worldWidth as real * (VillageMaxOffset - VillageMinOffset);
    ScaleBounds(r, len);
    assert VillageXFromDraw(r, worldWidth) == minX + r * len;
  }

  /** The four room parameters. */
  datatype RoomParams = RoomParams(biome: Option<BiomeName>, worldWidth: int, villageType: VillageType, villageX: Option<real>)

  /** The parameters from a prefix of the room stream: values 0, 1 and 2, and value
      3 only for a village. */
  function ParamsFrom(vals: seq<Fraction>): RoomParams
  {
    var worldWidth := WorldWidthFromDraw(Val(vals, 1));
    var villageType := FirstBucket(Val(vals, 2) as real * TotalWeight() as real, 0);
    RoomParams(
      BiomeFromDraw(Val(vals, 0)), worldWidth, villageType,
      if villageType == NoVillage then None else Some(VillageXFromDraw(Val(vals, 3), worldWidth)))
  }

  /** The parameter draws of `createRoom`: three values, and a fourth for a village. */
  method DrawRoomParameters(rng: SeededRandom, ghost vals: seq<Fraction>) returns (params: RoomParams)
    requires rng.Valid() && PrefixOf(vals, rng.source) && rng.drawn == 0 && |vals| >= 4
    modifies rng
    ensures params == ParamsFrom(vals)
    ensures rng.Valid() && rng.drawn == if params.villageType == NoVillage then 3 else 4
  {
    var r0 := rng.Next(vals);
    var randomBiome := BiomeFromDraw(r0);
    var r1 := rng.Next(vals);
    var randomWorldWidth := WorldWidthFromDraw(r1);
    var totalWeight := TotalWeight();
    var r2 := rng.Next(vals);
    var selectedVillageType := SelectVillageType(r2 as real * totalWeight as real);
    var villageXPosition: Option<real> := None;
    if selectedVillageType != NoVillage {
      var r3 := rng.Next(vals);
      villageXPosition := Some(VillageXFromDraw(r3, randomWorldWidth));
    }
    params := RoomParams(randomBiome, randomWorldWidth, selectedVillageType, villageXPosition);
  }

  /** What the parameters promise for every stream. */
  lemma ParamsFacts(vals: seq<Fraction>)
    ensures var p := ParamsFrom(vals);
      WorldWidthMin <= p.worldWidth <= WorldWidthMax + 1 &&
      (p.biome.None? <==> Val(vals, 0) == 1.0) &&
      (p.villageX.None? <==> p.villageType == NoVillage) &&
      (p.villageX.Some? ==>
         p.worldWidth as real * VillageMinOffset <= p.villageX.value <= p.worldWidth as real * VillageMaxOffset) &&
      (Val(vals, 2) == 1.0 ==> p.villageType == NoVillage)
  {
    BiomeFromDrawFacts(Val(vals, 0));
    WorldWidthBounds(Val(vals, 1));
    var x := Val(vals, 2) as real * 100.0;
    ScaleBounds(Val(vals, 2), 100.0);
    FirstBucketThresholds(x);
    VillageXBounds(Val(vals, 3), WorldWidthFromDraw(Val(vals, 1)));
  }

  /** The room's `gameData` record. */
  datatype GameData = GameData(
    groundLevel: int, biome: Option<BiomeName>, worldWidth: int,
    groundPlants: seq<GroundPlant>, trees: seq<Tree>, insects: seq<Insect>,
    villageType: VillageType, villageXPosition: Option<real>, placedBuildings: seq<Building>)

  /** The number of values of the room stream that any room reads. */
  const RoomReads: nat := 4

  /** The world of room `roomId`; `Err` when the building layout throws. */
  function GameDataFor(roomId: string): Result<GameData, GenError>
  {
    var p := ParamsFrom(Draws(roomId, RoomReads));
    var layout :=
      if p.villageType == NoVillage then Ok([])
      else LayoutFor(roomId, p.biome, p.villageType, p.villageX.value, p.worldWidth);
    match layout
    case Err(e) => Err(e)
    case Ok(placedBuildings) =>
      Ok(GameData(
        GroundLevel, p.biome, p.worldWidth,
        GroundPlantsFor(roomId, GroundLevel, p.worldWidth),
        TreesFor(roomId, GroundLevel, p.worldWidth, p.biome),
        InsectsFor(roomId, GroundLevel, p.worldWidth),
        p.villageType, p.villageX, placedBuildings))
  }

  /** The generating steps of `createRoom`, in the source's order. */
  method GenerateGameData(roomId: string) returns (result: Result<GameData, GenError>)
    ensures result == GameDataFor(roomId)
  {
    var roomSeededRandom := new SeededRandom(roomId);
    ghost var vals := Draws(roomId, RoomReads);
    DrawsPrefix(roomId, RoomReads);
    var params := DrawRoomParameters(roomSeededRandom, vals);
    var placedBuildings: seq<Building> := [];
    if params.villageType != NoVillage {
      var layout := GenerateBuildingsLayout(roomId, params.biome, params.villageType, params.villageX.value, params.worldWidth);
      if layout.Err? {
        return Err(layout.error);
      }
      placedBuildings := layout.value;
    }
    var groundPlants := GenerateGroundPlants(roomId, GroundLevel, params.worldWidth);
    var trees := GenerateTrees(roomId, GroundLevel, params.worldWidth, params.biome);
    var insects := GenerateInsects(roomId, GroundLevel, params.worldWidth);
    result := Ok(GameData(
      GroundLevel, params.biome, params.worldWidth, groundPlants, trees, insects,
      params.villageType, params.villageX, placedBuildings));
  }

  /** A room's world: the width bounds, a village centre exactly for a village,
      buildings only for a village, and a failure only when the building stream
      yields exactly 1.0 somewhere. */
  lemma GameDataFacts(roomId: string)
    ensures var r := GameDataFor(roomId);
      (r.Ok? ==>
        var g := r.value;
        WorldWidthMin <= g.worldWidth <= WorldWidthMax + 1 &&
        g.groundLevel == GroundLevel &&
        (g.villageXPosition.None? <==> g.villageType == NoVillage) &&
        (g.villageType == NoVillage ==> g.placedBuildings == []) &&
        |g.groundPlants| == PlantCount(g.worldWidth) &&
        |g.insects| == InsectCount(g.worldWidth)) &&
      (r.Err? ==> exists k :: 0 <= k < BuildingReads && Draw(BuildingsSeed(roomId), k) == 1.0)
  {
    var vals := Draws(roomId, RoomReads);
    ParamsFacts(vals);
    var p := ParamsFrom(vals);
    var r := GameDataFor(roomId);
    if r.Ok? {
      PlantsFacts(Draws(PlantsSeed(roomId), 4 * PlantCount(p.worldWidth)), GameHeight - GroundLevel as real, p.worldWidth);
      InsectsFacts(Draws(InsectsSeed(roomId), 10 * InsectCount(p.worldWidth)), GroundLevel, p.worldWidth);
    } else {
      var bvals := Draws(BuildingsSeed(roomId), BuildingReads);
      LayoutFacts(bvals, p.biome, p.villageType, p.villageX.value, p.worldWidth);
      var k :| 0 <= k < |bvals| && !(bvals[k] < 1.0);
      assert Draw(BuildingsSeed(roomId), k) == 1.0;
    }
  }
}
