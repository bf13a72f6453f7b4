/** The client's decoration state (public/js/biomemanager.js): the ground plants
    and trees a room's data carries, split into a background and a foreground
    layer by `zIndex`; the sway timer every plant runs when a player brushes it;
    and the grid of first-layer ground tiles.

    The room data arrives as JSON, so a record may lack `zIndex` or
    `swayDirection`; those are `Option`s here. `Math.random` values are
    parameters, one unit value in [0, 1) per draw. */
module Biome {
  import opened Common
  import WorldGen

  const GroundGrassMinScale: real := 2.2
  const GroundGrassMaxScale: real := 3.6
  const TreeMinScale: real := 2.7
  const TreeMaxScale: real := 3.6
  /** `SWAY_DURATION`, in seconds. */
  const SwayDuration: real := 1.8
  /** The factor from `tileSize` to `scaledTileSize`. */
  const TileScale: real := 3.75

  /** `possibleTiles` of the first ground layer. */
  const PossibleTiles: seq<string> := ["grass", "ground_variant_224", "ground_variant_256"]

  /** A ground plant as the room data carries it. */
  datatype PlantData = PlantData(
    id: string, x: real, y: real, typeIndex: nat, isMirrored: bool,
    swayDirection: Option<real>, zIndex: Option<int>)

  /** A tree as the room data carries it. */
  datatype TreeData = TreeData(id: string, x: real, y: real, typeIndex: nat, isMirrored: bool, zIndex: Option<int>)

  /** A ground plant on the client: the server's fields, a drawing scale and the sway timer. */
  datatype ClientPlant = ClientPlant(
    id: string, x: real, y: real, typeIndex: nat, isMirrored: bool, scale: real,
    isSwaying: bool, swayAnimationTime: real, swayDirection: real, zIndex: int)

  datatype ClientTree = ClientTree(id: string, x: real, y: real, typeIndex: nat, isMirrored: bool, scale: real, zIndex: int)

  // ---------------------------------------------------------------------------
  // Layers
  // ---------------------------------------------------------------------------

  /** `zIndex === undefined ? -1 : zIndex`. */
  function ZOrDefault(z: Option<int>): (r: int)
    ensures z.Some? ==> r == z.value
    ensures z.None? ==> r <= 0
  {
    if z.Some? then z.value else -1
  }

  /** `d || 1` on a number that may be missing: a missing or zero value gives 1. */
  function OrOne(d: Option<real>): (r: real)
    ensures r != 0.0
    ensures d.Some? && d.value != 0.0 ==> r == d.value
  {
    if d.Some? && d.value != 0.0 then d.value else 1.0
  }

  /** `filter(p => p.zIndex <= 0)` (`front` false) or `filter(p => p.zIndex > 0)`
      (`front` true): the elements of the layer, in their order. */
  function Layer<T(==,!new)>(s: seq<T>, z: T -> int, front: bool): (r: seq<T>)
    ensures |r| <= |s|
    ensures forall x :: x in r <==> x in s && (z(x) > 0) == front
  {
    if s == [] then []
    else if (z(s[0]) > 0) == front then [s[0]] + Layer(s[1..], z, front)
    else Layer(s[1..], z, front)
  }

  /** Filtering distributes over concatenation: the order of a layer is the
      order of the input. */
  lemma {:induction false} LayerAppend<T(!new)>(a: seq<T>, b: seq<T>, z: T -> int, front: bool)
    ensures Layer(a + b, z, front) == Layer(a, z, front) + Layer(b, z, front)
  {
    if a != [] {
      assert (a + b)[1..] == a[1..] + b;
      LayerAppend(a[1..], b, z, front);
    } else {
      assert a + b == b;
    }
  }

  /** The two layers split the input: every element, counted with its
      multiplicity, lands in exactly one of them. */
  lemma {:induction false} LayersPartition<T(!new)>(s: seq<T>, z: T -> int)
    ensures multiset(Layer(s, z, false)) + multiset(Layer(s, z, true)) == multiset(s)
    ensures |Layer(s, z, false)| + |Layer(s, z, true)| == |s|
  {
    if s != [] {
      LayersPartition(s[1..], z);
      assert s == [s[0]] + s[1..];
    }
  }

  function PlantZ(p: ClientPlant): int { p.zIndex }
  function TreeZ(t: ClientTree): int { t.zIndex }

  /** The `map` of `initializeGroundPlants`: server fields kept, a scale in
      [2.2, 3.6) drawn from `units`, the timer stopped at 0, the direction
      defaulted to 1 and the missing `zIndex` to -1. */
  function PreparedPlants(data: seq<PlantData>, units: seq<real>): (r: seq<ClientPlant>)
    requires |units| == |data|
    ensures |r| == |data|
    ensures forall i :: 0 <= i < |r| ==>
      r[i].id == data[i].id && r[i].x == data[i].x && r[i].y == data[i].y &&
      r[i].typeIndex == data[i].typeIndex && r[i].isMirrored == data[i].isMirrored &&
      !r[i].isSwaying && r[i].swayAnimationTime == 0.0 &&
      r[i].swayDirection == OrOne(data[i].swayDirection) && r[i].zIndex == ZOrDefault(data[i].zIndex) &&
      (0.0 <= units[i] < 1.0 ==> GroundGrassMinScale <= r[i].scale < GroundGrassMaxScale)
  {
    seq(|data|, i requires 0 <= i < |data| =>
      var p := data[i];
      ClientPlant(p.id, p.x, p.y, p.typeIndex, p.isMirrored,
        GroundGrassMinScale + units[i] * (GroundGrassMaxScale - GroundGrassMinScale),
        false, 0.0, OrOne(p.swayDirection), ZOrDefault(p.zIndex)))
  }

  /** The `map` of `initializeTrees`: a scale in [2.7, 3.6) and the missing
      `zIndex` defaulted to -1. */
  function PreparedTrees(data: seq<TreeData>, units: seq<real>): (r: seq<ClientTree>)
    requires |units| == |data|
    ensures |r| == |data|
    ensures forall i :: 0 <= i < |r| ==>
      r[i].id == data[i].id && r[i].x == data[i].x && r[i].y == data[i].y &&
      r[i].typeIndex == data[i].typeIndex && r[i].isMirrored == data[i].isMirrored &&
      r[i].zIndex == ZOrDefault(data[i].zIndex) &&
      (0.0 <= units[i] < 1.0 ==> TreeMinScale <= r[i].scale < TreeMaxScale)
  {
    seq(|data|, i requires 0 <= i < |data| =>
      var t := data[i];
      ClientTree(t.id, t.x, t.y, t.typeIndex, t.isMirrored,
        TreeMinScale + units[i] * (TreeMaxScale - TreeMinScale), ZOrDefault(t.zIndex)))
  }

  /** A server plant as the room data carries it: the server sends no sway
      direction, and always a `zIndex`. */
  function SentPlant(p: WorldGen.GroundPlant): PlantData
  {
    PlantData(p.id, p.x, p.y, p.typeIndex, p.isMirrored, None, Some(p.zIndex))
  }

  /** Plants that come from the server sway to the right at first, and each is
      layered by the `zIndex` the server drew for it. */
  lemma ServerPlantsPrepared(plants: seq<WorldGen.GroundPlant>, units: seq<real>)
    requires |units| == |plants|
    ensures var r := PreparedPlants(seq(|plants|, i requires 0 <= i < |plants| => SentPlant(plants[i])), units);
      forall i :: 0 <= i < |r| ==>
        r[i].id == plants[i].id && r[i].swayDirection == 1.0 && r[i].zIndex == plants[i].zIndex
  {
  }

  // ---------------------------------------------------------------------------
  // Sway timer
  // ---------------------------------------------------------------------------

  /** The timer's invariant: it runs in [0, 1.8) and rests at 0 when the plant is still. */
  predicate Settled(p: ClientPlant)
  {
    0.0 <= p.swayAnimationTime < SwayDuration && (!p.isSwaying ==> p.swayAnimationTime == 0.0)
  }

  /** The body of `startSwayAnimation` on the found plant: a plant already
      swaying is left alone. */
  function Started(p: ClientPlant, direction: Option<real>): (r: ClientPlant)
    ensures r.isSwaying
    ensures p.isSwaying ==> r == p
    ensures !p.isSwaying ==> r.swayAnimationTime == 0.0 && r.swayDirection == OrOne(direction)
    ensures r.(isSwaying := p.isSwaying, swayAnimationTime := p.swayAnimationTime, swayDirection := p.swayDirection) == p
    ensures Settled(p) ==> Settled(r)
  {
    if p.isSwaying then p
    else p.(isSwaying := true, swayAnimationTime := 0.0, swayDirection := OrOne(direction))
  }

  /** The index `find(g => g.id === id)` returns, if any. */
  function FirstWithId(s: seq<ClientPlant>, id: string): (r: Option<nat>)
    ensures r.Some? ==> r.value < |s| && s[r.value].id == id && forall j :: 0 <= j < r.value ==> s[j].id != id
    ensures r.None? <==> forall j :: 0 <= j < |s| ==> s[j].id != id
  {
    if s == [] then None
    else if s[0].id == id then Some(0)
    else match FirstWithId(s[1..], id)
      case None => None
      case Some(k) => Some(k + 1)
  }

  /** One step of the `forEach` in `_updateGroundPlantsAnimation`. */
  function SwayStep(p: ClientPlant, deltaTime: real): (r: ClientPlant)
    ensures r.(isSwaying := p.isSwaying, swayAnimationTime := p.swayAnimationTime) == p
    ensures !p.isSwaying ==> r == p
    ensures p.isSwaying && p.swayAnimationTime + deltaTime < SwayDuration ==>
      r.isSwaying && r.swayAnimationTime == p.swayAnimationTime + deltaTime
    ensures p.isSwaying && p.swayAnimationTime + deltaTime >= SwayDuration ==>
      !r.isSwaying && r.swayAnimationTime == 0.0
  {
    if !p.isSwaying then p
    else
      var t := p.swayAnimationTime + deltaTime;
      if t >= SwayDuration then p.(isSwaying := false, swayAnimationTime := 0.0)
      else p.(swayAnimationTime := t)
  }

  /** A step forward in time keeps the timer's invariant. */
  lemma SwayStepKeepsSettled(p: ClientPlant, deltaTime: real)
    requires Settled(p) && deltaTime >= 0.0
    ensures Settled(SwayStep(p, deltaTime))
  {
  }

  /** `n` frames of the same length. */
  function Steps(p: ClientPlant, deltaTime: real, n: nat): ClientPlant
    decreases n
  {
    if n == 0 then p else Steps(SwayStep(p, deltaTime), deltaTime, n - 1)
  }

  /** A still plant stays still while only time passes. */
  lemma {:induction false} StillStaysStill(p: ClientPlant, deltaTime: real, n: nat)
    requires !p.isSwaying
    ensures Steps(p, deltaTime, n) == p
    decreases n
  {
    if n > 0 {
      StillStaysStill(SwayStep(p, deltaTime), deltaTime, n - 1);
    }
  }

  /** A sway ends within the frames that add up to 1.8 seconds, and the plant
      then rests. */
  lemma {:induction false} SwayEnds(p: ClientPlant, deltaTime: real, n: nat)
    requires Settled(p) && deltaTime > 0.0
    requires p.swayAnimationTime + (n as real) * deltaTime >= SwayDuration
    ensures !Steps(p, deltaTime, n).isSwaying && Steps(p, deltaTime, n).swayAnimationTime == 0.0
    decreases n
  {
    if !p.isSwaying {
      StillStaysStill(p, deltaTime, n);
    } else if n > 0 {
      var q := SwayStep(p, deltaTime);
      if q.isSwaying {
        assert ((n - 1) as real) * deltaTime == (n as real) * deltaTime - deltaTime;
        SwayEnds(q, deltaTime, n - 1);
      } else {
        StillStaysStill(q, deltaTime, n - 1);
      }
    }
  }

  /** `Math.floor(r * possibleTiles.length)` picks a tile. */
  function TileFor(r: real): (name: string)
    requires 0.0 <= r < 1.0
    ensures name in PossibleTiles
  {
    PossibleTiles[(r * 3.0).Floor]
  }

  /** `Math.ceil(worldWidth / scaledTileSize)`. */
  function TileCount(worldWidth: real, tileSize: real): int
    requires tileSize > 0.0
  {
    Ceil(worldWidth / (tileSize * TileScale))
  }

  /** The tiles span the world and overshoot it by less than one tile. */
  lemma TileCountCovers(worldWidth: real, tileSize: real)
    requires tileSize > 0.0
    ensures var n := TileCount(worldWidth, tileSize); var s := tileSize * TileScale;
      n as real * s >= worldWidth && (n - 1) as real * s < worldWidth
  {
    var n := TileCount(worldWidth, tileSize);
    var s := tileSize * TileScale;
    var q := worldWidth / s;
    assert q * s == worldWidth;
    assert n as real >= q && (n - 1) as real < q;
    MulMonotone(q, n as real, s);
    MulMonotone((n - 1) as real, q, s);
    assert n as real * s >= worldWidth;
    assert (n - 1) as real * s < worldWidth;
  }

  // ---------------------------------------------------------------------------
  // The manager
  // ---------------------------------------------------------------------------

  /** The decoration state of `BiomeManager` this model covers. */
  class BiomeManager {
    var worldWidth: real
    var tileSize: real
    var firstLayerTilesGrid: seq<string>
    var backgroundGroundPlants: seq<ClientPlant>
    var foregroundGroundPlants: seq<ClientPlant>
    var backgroundTrees: seq<ClientTree>
    var foregroundTrees: seq<ClientTree>

    /** Every plant's sway timer keeps its invariant. */
    ghost predicate Valid()
      reads this
    {
      (forall i :: 0 <= i < |backgroundGroundPlants| ==> Settled(backgroundGroundPlants[i])) &&
      (forall i :: 0 <= i < |foregroundGroundPlants| ==> Settled(foregroundGroundPlants[i]))
    }

    /** No plants or trees yet; the last `_generateFirstLayerTileGrid` of the
        constructor draws the tile grid from `units`. */
    constructor(worldWidth: real, tileSize: real, units: seq<real>)
      requires tileSize > 0.0
      requires |units| >= TileCount(worldWidth, tileSize)
      requires forall k :: 0 <= k < |units| ==> 0.0 <= units[k] < 1.0
      ensures Valid()
      ensures this.worldWidth == worldWidth && this.tileSize == tileSize
      ensures backgroundGroundPlants == [] && foregroundGroundPlants == []
      ensures backgroundTrees == [] && foregroundTrees == []
      ensures |firstLayerTilesGrid| == if TileCount(worldWidth, tileSize) < 0 then 0 else TileCount(worldWidth, tileSize)
      ensures forall k :: 0 <= k < |firstLayerTilesGrid| ==> firstLayerTilesGrid[k] == TileFor(units[k])
    {
      this.worldWidth := worldWidth;
      this.tileSize := tileSize;
      backgroundGroundPlants := [];
      foregroundGroundPlants := [];
      backgroundTrees := [];
      foregroundTrees := [];
      new;
      GenerateFirstLayerTileGrid(units);
    }

    /** `_generateFirstLayerTileGrid`: one tile per draw, as many as cover the world. */
    method GenerateFirstLayerTileGrid(units: seq<real>)
      requires tileSize > 0.0
      requires |units| >= TileCount(worldWidth, tileSize)
      requires forall k :: 0 <= k < |units| ==> 0.0 <= units[k] < 1.0
      modifies this
      ensures worldWidth == old(worldWidth) && tileSize == old(tileSize)
      ensures |firstLayerTilesGrid| == if TileCount(worldWidth, tileSize) < 0 then 0 else TileCount(worldWidth, tileSize)
      ensures forall k :: 0 <= k < |firstLayerTilesGrid| ==> firstLayerTilesGrid[k] == TileFor(units[k])
      ensures backgroundGroundPlants == old(backgroundGroundPlants) && foregroundGroundPlants == old(foregroundGroundPlants)
      ensures backgroundTrees == old(backgroundTrees) && foregroundTrees == old(foregroundTrees)
    {
      var numTilesX := TileCount(worldWidth, tileSize);
      var grid := [];
      var x := 0;
      while x < numTilesX
        invariant 0 <= x <= |units| && (numTilesX >= 0 ==> x <= numTilesX) && (numTilesX < 0 ==> x == 0)
        invariant |grid| == x
        invariant forall k :: 0 <= k < x ==> grid[k] == TileFor(units[k])
        decreases numTilesX - x
      {
        grid := grid + [TileFor(units[x])];
        x := x + 1;
      }
      firstLayerTilesGrid := grid;
    }

    /** `initializeGroundPlants`: a missing or empty list empties both layers;
        otherwise the prepared plants are split by `zIndex`. */
    method InitializeGroundPlants(plantsData: Option<seq<PlantData>>, units: seq<real>)
      requires plantsData.Some? ==> |units| == |plantsData.value|
      modifies this
      ensures Valid()
      ensures if plantsData.None? || plantsData.value == [] then
          backgroundGroundPlants == [] && foregroundGroundPlants == []
        else
          var all := PreparedPlants(plantsData.value, units);
          backgroundGroundPlants == Layer(all, PlantZ, false) && foregroundGroundPlants == Layer(all, PlantZ, true)
      ensures worldWidth == old(worldWidth) && tileSize == old(tileSize) && firstLayerTilesGrid == old(firstLayerTilesGrid)
      ensures backgroundTrees == old(backgroundTrees) && foregroundTrees == old(foregroundTrees)
    {
      if plantsData.None? || plantsData.value == [] {
        backgroundGroundPlants := [];
        foregroundGroundPlants := [];
        return;
      }
      var allPlants := PreparedPlants(plantsData.value, units);
      backgroundGroundPlants := Layer(allPlants, PlantZ, false);
      foregroundGroundPlants := Layer(allPlants, PlantZ, true);
      forall i | 0 <= i < |backgroundGroundPlants|
        ensures Settled(backgroundGroundPlants[i])
      {
        assert backgroundGroundPlants[i] in allPlants;
      }
      forall i | 0 <= i < |foregroundGroundPlants|
        ensures Settled(foregroundGroundPlants[i])
      {
        assert foregroundGroundPlants[i] in allPlants;
      }
    }

    /** `initializeTrees`: the same split, for trees. */
    method InitializeTrees(treesData: Option<seq<TreeData>>, units: seq<real>)
      requires treesData.Some? ==> |units| == |treesData.value|
      modifies this
      ensures if treesData.None? || treesData.value == [] then
          backgroundTrees == [] && foregroundTrees == []
        else
          var all := PreparedTrees(treesData.value, units);
          backgroundTrees == Layer(all, TreeZ, false) && foregroundTrees == Layer(all, TreeZ, true)
      ensures worldWidth == old(worldWidth) && tileSize == old(tileSize) && firstLayerTilesGrid == old(firstLayerTilesGrid)
      ensures backgroundGroundPlants == old(backgroundGroundPlants) && foregroundGroundPlants == old(foregroundGroundPlants)
    {
      if treesData.None? || treesData.value == [] {
        backgroundTrees := [];
        foregroundTrees := [];
        return;
      }
      var allTrees := PreparedTrees(treesData.value, units);
      backgroundTrees := Layer(allTrees, TreeZ, false);
      foregroundTrees := Layer(allTrees, TreeZ, true);
    }

    /** `startSwayAnimation`: the first plant with the id, searched in the
        background layer and then in the foreground layer, starts swaying
        unless it already sways. */
    method StartSwayAnimation(grassId: string, direction: Option<real>)
      modifies this
      ensures old(Valid()) ==> Valid()
      ensures match FirstWithId(old(backgroundGroundPlants), grassId)
        case Some(i) =>
          backgroundGroundPlants == old(backgroundGroundPlants)[i := Started(old(backgroundGroundPlants)[i], direction)] &&
          foregroundGroundPlants == old(foregroundGroundPlants)
        case None =>
          backgroundGroundPlants == old(backgroundGroundPlants) &&
          match FirstWithId(old(foregroundGroundPlants), grassId)
            case Some(j) =>
              foregroundGroundPlants == old(foregroundGroundPlants)[j := Started(old(foregroundGroundPlants)[j], direction)]
            case None => foregroundGroundPlants == old(foregroundGroundPlants)
      ensures worldWidth == old(worldWidth) && tileSize == old(tileSize) && firstLayerTilesGrid == old(firstLayerTilesGrid)
      ensures backgroundTrees == old(backgroundTrees) && foregroundTrees == old(foregroundTrees)
    {
      var found := FirstWithId(backgroundGroundPlants, grassId);
      if found.Some? {
        var i := found.value;
        backgroundGroundPlants := backgroundGroundPlants[i := Started(backgroundGroundPlants[i], direction)];
      } else {
        var other := FirstWithId(foregroundGroundPlants, grassId);
        if other.Some? {
          var j := other.value;
          foregroundGroundPlants := foregroundGroundPlants[j := Started(foregroundGroundPlants[j], direction)];
        }
      }
    }

    /** `_updateGroundPlantsAnimation`: every plant of both layers, in the
        order of `[...background, ...foreground]`, advances its timer. */
    method UpdateGroundPlantsAnimation(deltaTime: real)
      modifies this
      ensures deltaTime >= 0.0 && old(Valid()) ==> Valid()
      ensures |backgroundGroundPlants| == |old(backgroundGroundPlants)|
      ensures forall i :: 0 <= i < |backgroundGroundPlants| ==>
        backgroundGroundPlants[i] == SwayStep(old(backgroundGroundPlants)[i], deltaTime)
      ensures |foregroundGroundPlants| == |old(foregroundGroundPlants)|
      ensures forall i :: 0 <= i < |foregroundGroundPlants| ==>
        foregroundGroundPlants[i] == SwayStep(old(foregroundGroundPlants)[i], deltaTime)
      ensures worldWidth == old(worldWidth) && tileSize == old(tileSize) && firstLayerTilesGrid == old(firstLayerTilesGrid)
      ensures backgroundTrees == old(backgroundTrees) && foregroundTrees == old(foregroundTrees)
    {
      var nb := |backgroundGroundPlants|;
      var total := nb + |foregroundGroundPlants|;
      var k := 0;
      while k < total
        invariant 0 <= k <= total
        invariant |backgroundGroundPlants| == nb && |foregroundGroundPlants| == total - nb
        invariant forall i :: 0 <= i < nb ==>
          backgroundGroundPlants[i] == (if i < k then SwayStep(old(backgroundGroundPlants)[i], deltaTime) else old(backgroundGroundPlants)[i])
        invariant forall i :: 0 <= i < total - nb ==>
          foregroundGroundPlants[i] == (if nb + i < k then SwayStep(old(foregroundGroundPlants)[i], deltaTime) else old(foregroundGroundPlants)[i])
        invariant worldWidth == old(worldWidth) && tileSize == old(tileSize) && firstLayerTilesGrid == old(firstLayerTilesGrid)
        invariant backgroundTrees == old(backgroundTrees) && foregroundTrees == old(foregroundTrees)
      {
        if k < nb {
          backgroundGroundPlants := backgroundGroundPlants[k := SwayStep(backgroundGroundPlants[k], deltaTime)];
        } else {
          foregroundGroundPlants := foregroundGroundPlants[k - nb := SwayStep(foregroundGroundPlants[k - nb], deltaTime)];
        }
        k := k + 1;
      }
      if deltaTime >= 0.0 && old(Valid()) {
        forall i | 0 <= i < nb
          ensures Settled(backgroundGroundPlants[i])
        {
          SwayStepKeepsSettled(old(backgroundGroundPlants)[i], deltaTime);
        }
        forall i | 0 <= i < total - nb
          ensures Settled(foregroundGroundPlants[i])
        {
          SwayStepKeepsSettled(old(foregroundGroundPlants)[i], deltaTime);
        }
      }
    }
  }
}
