/** The village layout of a new room (server.js `_getNumberOfBuildingsForType` and
    `_generateBuildingsLayout`), driven by the stream seeded with
    `roomId + "-buildings"`.

    A number of buildings is drawn for the village type; each building draws its
    definition and is then placed by rejection sampling inside a cluster around
    the village centre, at most 100 attempts, keeping a gap of 32 to every
    building already placed. The first building that finds no spot ends the
    loop. The result is sorted by `x`. A definition index read past the end of
    the definitions list (a value of exactly 1.0) makes the source throw; the
    model returns `Err` there. */
module Buildings {
  import opened Common
  import opened Random
  import opened WorldGen

  function BuildingsSeed(roomId: string): string { roomId + "-buildings" }

  /** `getBiomeBuildingInfo(biomeName)`: the definitions of the biome's buildings
      and their display scale; nothing for the undefined biome. */
  datatype BuildingInfo = BuildingInfo(definitions: seq<BuildingDef>, displayScaleFactor: real)

  function BiomeBuildingInfo(biome: Option<BiomeName>): (info: Option<BuildingInfo>)
    ensures info.Some? <==> biome.Some?
    ensures info.Some? ==> |info.value.definitions| == 3 && info.value.displayScaleFactor == BuildingDisplayScale
  {
    var t := BuildingSourceTile;
    match biome
    case None => None
    case Some(Jurassic) =>
      Some(BuildingInfo([BuildingDef("j_house1", t, t), BuildingDef("j_house2", t, t), BuildingDef("j_tower", t, t)], BuildingDisplayScale))
    case Some(Grassland) =>
      Some(BuildingInfo([BuildingDef("g_hut1", t, t), BuildingDef("g_hut2", t, t), BuildingDef("g_farm", t, t)], BuildingDisplayScale))
  }

  // ---------------------------------------------------------------------------
  // Number of buildings
  // ---------------------------------------------------------------------------

  /** The case of `_getNumberOfBuildingsForType` for the value `r` it reads. */
  function BuildingCount(villageType: VillageType, r: Fraction): nat
  {
    match villageType
    case NoVillage => 0
    case Minimal => 1 + FloorNat(r * 3.0)
    case Medium => 3 + FloorNat(r * 4.0)
    case Large => 6 + FloorNat(r * 5.0)
  }

  /** Minimal villages get 1-3 buildings, medium 3-6, large 6-10; a value of
      exactly 1.0 adds one more. */
  lemma BuildingCountBounds(villageType: VillageType, r: Fraction)
    ensures var n := BuildingCount(villageType, r);
      (villageType == NoVillage ==> n == 0) &&
      (villageType == Minimal ==> 1 <= n <= 4 && (r < 1.0 ==> n <= 3)) &&
      (villageType == Medium ==> 3 <= n <= 7 && (r < 1.0 ==> n <= 6)) &&
      (villageType == Large ==> 6 <= n <= 11 && (r < 1.0 ==> n <= 10)) &&
      n <= MaxBuildings
  {
    ScaleBounds(r, 3.0);
    ScaleBounds(r, 4.0);
    ScaleBounds(r, 5.0);
  }

  /** The largest count a village can draw. */
  const MaxBuildings: nat := 11

  /** `_getNumberOfBuildingsForType`: a village other than `none` reads one value. */
  method NumberOfBuildingsForType(rng: SeededRandom, ghost vals: seq<Fraction>, villageType: VillageType) returns (n: nat)
    requires rng.Valid() && PrefixOf(vals, rng.source) && rng.drawn < |vals|
    modifies rng
    ensures rng.Valid() && rng.drawn == old(rng.drawn) + (if villageType == NoVillage then 0 else 1)
    ensures n == BuildingCount(villageType, Val(vals, old(rng.drawn)))
  {
    match villageType
    case NoVillage =>
      n := 0;
    case Minimal =>
      var r: real := rng.Next(vals);
      n := 1 + FloorNat(r * 3.0);
    case Medium =>
      var r: real := rng.Next(vals);
      n := 3 + FloorNat(r * 4.0);
    case Large =>
      var r: real := rng.Next(vals);
      n := 6 + FloorNat(r * 5.0);
  }

  // ---------------------------------------------------------------------------
  // Geometry
  // ---------------------------------------------------------------------------

  /** `[minClusterX, maxClusterX]`, the span the village is placed in. */
  datatype Cluster = Cluster(minX: real, maxX: real)

  /** The cluster for `n` buildings around `villageX`: wide enough for `n` average
      buildings and their gaps (at least a tenth of the world), capped at
      8/10 of the world. */
  function ClusterFor(n: nat, scale: real, villageX: real, worldWidth: int): (c: Cluster)
    ensures c.maxX - c.minX == Min(Max(n as real * (BuildingSourceTile * scale) + (n - 1) as real * BuildingGap + BuildingGap * 2.0,
                                       worldWidth as real * 0.1),
                                   worldWidth as real * 0.8)
    ensures c.minX + c.maxX == 2.0 * villageX
  {
    var averageBuildingWidth := BuildingSourceTile * scale;
    var estimatedMinTotalWidth := n as real * averageBuildingWidth + (n - 1) as real * BuildingGap;
    var minCalculatedClusterWidth := Max(estimatedMinTotalWidth + BuildingGap * 2.0, worldWidth as real * 0.1);
    var villageClusterWidth := Min(minCalculatedClusterWidth, worldWidth as real * 0.8);
    Cluster(villageX - villageClusterWidth / 2.0, villageX + villageClusterWidth / 2.0)
  }

  /** The candidate for value `r` and a building of width `w`: a point of
      `[minX, maxX - w]` (when that span is empty, `maxX - w`). */
  function CandidateX(r: Fraction, c: Cluster, w: real): (x: real)
    ensures x <= c.maxX - w
    ensures c.minX <= c.maxX - w ==> c.minX <= x
    ensures c.minX <= c.maxX - w ==> x == c.minX + r * (c.maxX - w - c.minX)
  {
    ClampedOffsetFacts(r, c.minX, c.maxX - w);
    var range := Max(0.0, c.maxX - w - c.minX);
    var potentialX := c.minX + r * range;
    Min(c.maxX - w, Max(c.minX, potentialX))
  }

  /** An offset `r` of the way into `[lo, hi]`, clamped to it: never above `hi`, and
      when the span is not empty, the unclamped point itself. */
  lemma ClampedOffsetFacts(r: Fraction, lo: real, hi: real)
    ensures var x := Min(hi, Max(lo, lo + r * Max(0.0, hi - lo)));
      x <= hi && (lo <= hi ==> lo <= x && x == lo + r * (hi - lo))
  {
    if lo <= hi {
      var p := lo + r * (hi - lo);
      assert Max(0.0, hi - lo) == hi - lo;
      ScaleBounds(r, hi - lo);
      assert lo <= p <= hi;
      assert Max(lo, p) == p;
      assert Min(hi, p) == p;
    } else {
      assert Max(0.0, hi - lo) == 0.0;
    }
  }

  /** Two buildings with at least `minBuildingGap` between them, in either order. */
  predicate Apart(a: Building, b: Building)
  {
    a.x + a.width + BuildingGap <= b.x || b.x + b.width + BuildingGap <= a.x
  }

  /** The overlap test of the inner `for ... of` loop, for a candidate of width `w` at `x`. */
  predicate OverlapsPlaced(x: real, w: real, placed: seq<Building>)
  {
    exists j :: 0 <= j < |placed| && !(x + w + BuildingGap <= placed[j].x || placed[j].x + placed[j].width + BuildingGap <= x)
  }

  method CheckBuildingOverlap(potentialX: real, w: real, placed: seq<Building>) returns (overlaps: bool)
    ensures overlaps == OverlapsPlaced(potentialX, w, placed)
  {
    overlaps := false;
    var j := 0;
    while j < |placed|
      invariant 0 <= j <= |placed|
      invariant forall m :: 0 <= m < j ==>
        potentialX + w + BuildingGap <= placed[m].x || placed[m].x + placed[m].width + BuildingGap <= potentialX
    {
      var pb := placed[j];
      if !(potentialX + w + BuildingGap <= pb.x || pb.x + pb.width + BuildingGap <= potentialX) {
        overlaps := true;
        return;
      }
      j := j + 1;
    }
  }

  // ---------------------------------------------------------------------------
  // Placement
  // ---------------------------------------------------------------------------

  /** The `while (attempts < 100)` search from stream index `k`. */
  function FindBuildingX(vals: seq<Fraction>, k: nat, attempts: nat, placed: seq<Building>, c: Cluster, w: real): Spot
    decreases BuildingAttempts - attempts
  {
    if attempts >= BuildingAttempts then Spot(None, k)
    else
      var potentialX := CandidateX(Val(vals, k), c, w);
      if !OverlapsPlaced(potentialX, w, placed) then Spot(Some(potentialX), k + 1)
      else FindBuildingX(vals, k + 1, attempts + 1, placed, c, w)
  }

  /** A definition's width or height as drawn: times the biome's display scale. */
  function DisplaySize(size: real, info: BuildingInfo): real
  {
    size * info.displayScaleFactor
  }

  /** `Math.floor(r * definitions.length)`: the definition a value selects. */
  function DefinitionIndex(r: Fraction, count: nat): (index: nat)
    ensures index <= count
    ensures r < 1.0 && count > 0 ==> index < count
  {
    ScaleBounds(r, count as real);
    FloorNat(r * count as real)
  }

  /** What one pass of the outer loop does from stream index `k`: the definition
      index past the list (the source's `TypeError`), a search that fails, or a
      building placed with the index after its last value. */
  datatype SlotOutcome = Undefined | NoSpot | PlacedAt(building: Building, next: nat)

  function BuildingSlot(vals: seq<Fraction>, k: nat, placed: seq<Building>, info: BuildingInfo, c: Cluster): SlotOutcome
  {
    var index := DefinitionIndex(Val(vals, k), |info.definitions|);
    if index >= |info.definitions| then Undefined
    else
      var d := info.definitions[index];
      var w := DisplaySize(d.width, info);
      var spot := FindBuildingX(vals, k + 1, 0, placed, c, w);
      match spot.x
      case None => NoSpot
      case Some(x) => PlacedAt(Building(d.id, x, w, DisplaySize(d.height, info)), spot.next)
  }

  /** Buildings `i .. n-1` of the outer loop from stream index `k`: a failed
      search ends the loop with the buildings placed so far. */
  function PlaceBuildings(vals: seq<Fraction>, i: nat, n: nat, k: nat, placed: seq<Building>, info: BuildingInfo, c: Cluster): Result<seq<Building>, GenError>
    decreases n - i
  {
    if i >= n then Ok(placed)
    else
      match BuildingSlot(vals, k, placed, info, c)
      case Undefined => Err(UndefinedBuildingDefinition)
      case NoSpot => Ok(placed)
      case PlacedAt(b, next) => PlaceBuildings(vals, i + 1, n, next, placed + [b], info, c)
  }

  /** The whole layout from a prefix of the building stream: no village, or a biome
      without definitions, gives no buildings and reads nothing. */
  function LayoutFrom(vals: seq<Fraction>, biome: Option<BiomeName>, villageType: VillageType, villageX: real, worldWidth: int): Result<seq<Building>, GenError>
  {
    if villageType == NoVillage then Ok([])
    else
      match BiomeBuildingInfo(biome)
      case None => Ok([])
      case Some(info) =>
        if |info.definitions| == 0 then Ok([])
        else
          var n := BuildingCount(villageType, Val(vals, 0));
          var c := ClusterFor(n, info.displayScaleFactor, villageX, worldWidth);
          match PlaceBuildings(vals, 0, n, 1, [], info, c)
          case Err(e) => Err(e)
          case Ok(placed) => Ok(SortByX(placed))
  }

  /** Enough values for any layout: the count, then per building its definition
      and every attempt. */
  const BuildingReads: nat := 1 + 11 * 101

  function LayoutFor(roomId: string, biome: Option<BiomeName>, villageType: VillageType, villageX: real, worldWidth: int): Result<seq<Building>, GenError>
  {
    LayoutFrom(Draws(BuildingsSeed(roomId), BuildingReads), biome, villageType, villageX, worldWidth)
  }

  method GenerateBuildingsLayout(roomId: string, biome: Option<BiomeName>, villageType: VillageType, villageX: real, worldWidth: int)
      returns (result: Result<seq<Building>, GenError>)
    ensures result == LayoutFor(roomId, biome, villageType, villageX, worldWidth)
  {
    if villageType == NoVillage {
      return Ok([]);
    }
    var rng := new SeededRandom(roomId + "-buildings");
    ghost var vals := Draws(BuildingsSeed(roomId), BuildingReads);
    DrawsPrefix(BuildingsSeed(roomId), BuildingReads);
    var biomeBuildingInfo := BiomeBuildingInfo(biome);
    if biomeBuildingInfo.None? || |biomeBuildingInfo.value.definitions| == 0 {
      return Ok([]);
    }
    var info := biomeBuildingInfo.value;
    var numBuildingsToDraw := NumberOfBuildingsForType(rng, vals, villageType);
    BuildingCountBounds(villageType, Val(vals, 0));
    var c := ClusterFor(numBuildingsToDraw, info.displayScaleFactor, villageX, worldWidth);
    var placed := PlaceAllBuildings(rng, vals, numBuildingsToDraw, info, c);
    match placed
    case Err(e) =>
      result := Err(e);
    case Ok(p) =>
      result := Ok(SortByX(p));
  }

  /** The outer `for` loop with its `break` on the first failure. */
  method PlaceAllBuildings(rng: SeededRandom, ghost vals: seq<Fraction>, n: nat, info: BuildingInfo, c: Cluster)
      returns (result: Result<seq<Building>, GenError>)
    requires rng.Valid() && PrefixOf(vals, rng.source) && rng.drawn == 1
    requires n <= MaxBuildings && |vals| == BuildingReads
    modifies rng
    ensures result == PlaceBuildings(vals, 0, n, 1, [], info, c)
  {
    var placed: seq<Building> := [];
    ghost var final := PlaceBuildings(vals, 0, n, 1, [], info, c);
    var i := 0;
    while i < n
      invariant 0 <= i <= n
      invariant rng.Valid() && PrefixOf(vals, rng.source)
      invariant rng.drawn <= 1 + 101 * i
      invariant PlaceBuildings(vals, i, n, rng.drawn, placed, info, c) == final
    {
      var undefined, building := PlaceOneBuilding(rng, vals, placed, info, c);
      if undefined {
        return Err(UndefinedBuildingDefinition);
      } else if building.None? {
        return Ok(placed);
      }
      placed := placed + [building.value];
      i := i + 1;
    }
    result := Ok(placed);
  }

  /** One pass of the outer loop: `undefined` for the source's `TypeError`, no
      building when the search fails. */
  method PlaceOneBuilding(rng: SeededRandom, ghost vals: seq<Fraction>, placed: seq<Building>, info: BuildingInfo, c: Cluster)
      returns (undefined: bool, building: Option<Building>)
    requires rng.Valid() && PrefixOf(vals, rng.source) && rng.drawn + 1 + BuildingAttempts <= |vals|
    modifies rng
    ensures rng.Valid() && old(rng.drawn) <= rng.drawn <= old(rng.drawn) + 1 + BuildingAttempts
    ensures BuildingSlot(vals, old(rng.drawn), placed, info, c) ==
      if undefined then Undefined else if building.None? then NoSpot else PlacedAt(building.value, rng.drawn)
  {
    building := None;
    var r := rng.Next(vals);
    var index := DefinitionIndex(r, |info.definitions|);
    if index >= |info.definitions| {
      return true, None;
    }
    undefined := false;
    var definition := info.definitions[index];
    var w := DisplaySize(definition.width, info);
    var h := DisplaySize(definition.height, info);
    var chosenX := SearchBuildingSpot(rng, vals, placed, c, w);
    if chosenX.Some? {
      building := Some(Building(definition.id, chosenX.value, w, h));
    }
  }

  /** The `while (attempts < 100)` loop with its overlap check. */
  method SearchBuildingSpot(rng: SeededRandom, ghost vals: seq<Fraction>, placed: seq<Building>, c: Cluster, w: real) returns (chosenX: Option<real>)
    requires rng.Valid() && PrefixOf(vals, rng.source) && rng.drawn + BuildingAttempts <= |vals|
    modifies rng
    ensures rng.Valid() && old(rng.drawn) <= rng.drawn <= old(rng.drawn) + BuildingAttempts
    ensures FindBuildingX(vals, old(rng.drawn), 0, placed, c, w) == Spot(chosenX, rng.drawn)
  {
    ghost var spot := FindBuildingX(vals, rng.drawn, 0, placed, c, w);
    ghost var k0 := rng.drawn;
    chosenX := None;
    var attempts := 0;
    while attempts < BuildingAttempts
      invariant 0 <= attempts <= BuildingAttempts
      invariant rng.Valid() && rng.drawn == k0 + attempts
      invariant spot == FindBuildingX(vals, rng.drawn, attempts, placed, c, w)
    {
      ghost var k := rng.drawn;
      var potentialX, overlaps := TryBuildingSpot(rng, vals, placed, c, w);
      FindBuildingXStep(vals, k, attempts, placed, c, w);
      if !overlaps {
        chosenX := Some(potentialX);
        return;
      }
      attempts := attempts + 1;
    }
  }

  /** One attempt: the clamped candidate from the next value, and its overlap check. */
  method TryBuildingSpot(rng: SeededRandom, ghost vals: seq<Fraction>, placed: seq<Building>, c: Cluster, w: real) returns (potentialX: real, overlaps: bool)
    requires rng.Valid() && rng.drawn < |vals| && PrefixOf(vals, rng.source)
    modifies rng
    ensures rng.Valid() && rng.drawn == old(rng.drawn) + 1
    ensures potentialX == CandidateX(Val(vals, old(rng.drawn)), c, w)
    ensures overlaps == OverlapsPlaced(potentialX, w, placed)
  {
    var r := rng.Next(vals);
    var randomXInRange := r * Max(0.0, c.maxX - w - c.minX);
    potentialX := c.minX + randomXInRange;
    potentialX := Max(c.minX, potentialX);
    potentialX := Min(c.maxX - w, potentialX);
    overlaps := CheckBuildingOverlap(potentialX, w, placed);
  }

  lemma FindBuildingXStep(vals: seq<Fraction>, k: nat, attempts: nat, placed: seq<Building>, c: Cluster, w: real)
    requires attempts < BuildingAttempts
    ensures FindBuildingX(vals, k, attempts, placed, c, w) ==
      var x := CandidateX(Val(vals, k), c, w);
      if !OverlapsPlaced(x, w, placed) then Spot(Some(x), k + 1)
      else FindBuildingX(vals, k + 1, attempts + 1, placed, c, w)
  {
  }

  // ---------------------------------------------------------------------------
  // Sorting (`placedBuildings.sort((a, b) => a.x - b.x)`, a stable sort)
  // ---------------------------------------------------------------------------

  /** Insert `b` after every element whose `x` is not greater than its own. */
  function InsertByX(b: Building, s: seq<Building>): seq<Building>
  {
    if s == [] then [b]
    else if b.x < s[0].x then [b] + s
    else [s[0]] + InsertByX(b, s[1..])
  }

  /** Insertion sort by `x`, keeping equal keys in their original order. */
  function SortByX(s: seq<Building>): seq<Building>
  {
    if s == [] then [] else InsertByX(s[|s| - 1], SortByX(s[..|s| - 1]))
  }

  ghost predicate SortedByX(s: seq<Building>)
  {
    forall a, b :: 0 <= a < b < |s| ==> s[a].x <= s[b].x
  }

  lemma {:induction false} InsertByXMultiset(b: Building, s: seq<Building>)
    ensures multiset(InsertByX(b, s)) == multiset(s) + multiset{b}
  {
    if s != [] && b.x >= s[0].x {
      InsertByXMultiset(b, s[1..]);
      assert s == [s[0]] + s[1..];
    }
  }

  /** An element of a list is found at some index. */
  lemma MemberIndex(z: Building, t: seq<Building>) returns (m: nat)
    requires z in multiset(t)
    ensures m < |t| && t[m] == z
  {
    m :| 0 <= m < |t| && t[m] == z;
  }

  /** A building not to the right of any element of a sorted list can head it. */
  lemma ConsSorted(x: Building, t: seq<Building>)
    requires SortedByX(t)
    requires forall j :: 0 <= j < |t| ==> x.x <= t[j].x
    ensures SortedByX([x] + t)
  {
    var out := [x] + t;
    forall a, c | 0 <= a < c < |out|
      ensures out[a].x <= out[c].x
    {
      if a > 0 {
        assert out[a] == t[a - 1];
      }
      assert out[c] == t[c - 1];
    }
  }

  lemma {:induction false} InsertByXSorted(b: Building, s: seq<Building>)
    requires SortedByX(s)
    ensures SortedByX(InsertByX(b, s))
  {
    if s == [] {
    } else if b.x < s[0].x {
      ConsSorted(b, s);
    } else {
      var tail := s[1..];
      assert SortedByX(tail) by {
        forall a, c | 0 <= a < c < |tail|
          ensures tail[a].x <= tail[c].x
        {
          assert tail[a] == s[a + 1] && tail[c] == s[c + 1];
        }
      }
      InsertByXSorted(b, tail);
      var rest := InsertByX(b, tail);
      InsertByXMultiset(b, tail);
      forall j | 0 <= j < |rest|
        ensures s[0].x <= rest[j].x
      {
        var z := rest[j];
        assert z in multiset(rest);
        if z != b {
          var m := MemberIndex(z, tail);
          assert s[m + 1] == z;
        }
      }
      ConsSorted(s[0], rest);
    }
  }

  lemma {:induction false} SortByXMultiset(s: seq<Building>)
    ensures multiset(SortByX(s)) == multiset(s)
    decreases |s|
  {
    if s != [] {
      var init, last := s[..|s| - 1], s[|s| - 1];
      var sorted := SortByX(init);
      SortByXMultiset(init);
      InsertByXMultiset(last, sorted);
      assert s == init + [last];
      calc {
        multiset(SortByX(s));
        multiset(InsertByX(last, sorted));
        multiset(sorted) + multiset{last};
        multiset(init) + multiset{last};
        multiset(s);
      }
    }
  }

  /** The sort is a permutation and its output is ordered by `x`. */
  lemma {:induction false} SortByXFacts(s: seq<Building>)
    ensures multiset(SortByX(s)) == multiset(s)
    ensures SortedByX(SortByX(s))
    decreases |s|
  {
    SortByXMultiset(s);
    if s != [] {
      SortByXFacts(s[..|s| - 1]);
      InsertByXSorted(s[|s| - 1], SortByX(s[..|s| - 1]));
    }
  }

  /** Every pair of buildings keeps the gap. */
  ghost predicate AllApart(s: seq<Building>)
  {
    forall a, b :: 0 <= a < b < |s| ==> Apart(s[a], s[b])
  }

  lemma AllApartSlice(s: seq<Building>, lo: nat, hi: nat)
    requires AllApart(s) && lo <= hi <= |s|
    ensures AllApart(s[lo..hi])
  {
    var t := s[lo..hi];
    forall a, c | 0 <= a < c < |t|
      ensures Apart(t[a], t[c])
    {
      assert t[a] == s[lo + a] && t[c] == s[lo + c];
    }
  }

  /** A building apart from every element of a pairwise-apart list can head it. */
  lemma ConsApart(x: Building, t: seq<Building>)
    requires AllApart(t)
    requires forall j :: 0 <= j < |t| ==> Apart(x, t[j])
    ensures AllApart([x] + t)
  {
    var out := [x] + t;
    forall a, c | 0 <= a < c < |out|
      ensures Apart(out[a], out[c])
    {
      if a > 0 {
        assert out[a] == t[a - 1];
      }
      assert out[c] == t[c - 1];
    }
  }

  /** Inserting a building apart from all others keeps every pair apart. */
  lemma {:induction false} InsertByXApart(b: Building, s: seq<Building>)
    requires AllApart(s)
    requires forall j :: 0 <= j < |s| ==> Apart(b, s[j])
    ensures AllApart(InsertByX(b, s))
  {
    if s == [] {
    } else if b.x < s[0].x {
      ConsApart(b, s);
    } else {
      var tail := s[1..];
      AllApartSlice(s, 1, |s|);
      forall j | 0 <= j < |tail|
        ensures Apart(b, tail[j])
      {
        assert tail[j] == s[j + 1];
      }
      InsertByXApart(b, tail);
      var rest := InsertByX(b, tail);
      InsertByXMultiset(b, tail);
      forall j | 0 <= j < |rest|
        ensures Apart(s[0], rest[j])
      {
        var z := rest[j];
        assert z in multiset(rest);
        if z == b {
          assert Apart(b, s[0]);
        } else {
          var m := MemberIndex(z, tail);
          assert s[m + 1] == z;
          assert Apart(s[0], s[m + 1]);
        }
      }
      ConsApart(s[0], rest);
    }
  }

  /** Sorting keeps every pair apart. */
  lemma {:induction false} SortByXApart(s: seq<Building>)
    requires AllApart(s)
    ensures AllApart(SortByX(s))
    decreases |s|
  {
    if s != [] {
      var init := s[..|s| - 1];
      var last := s[|s| - 1];
      AllApartSlice(s, 0, |s| - 1);
      SortByXApart(init);
      SortByXMultiset(init);
      var sorted := SortByX(init);
      forall j | 0 <= j < |sorted|
        ensures Apart(last, sorted[j])
      {
        var m := MemberIndex(sorted[j], init);
        assert init[m] == s[m];
        assert Apart(s[m], last);
      }
      InsertByXApart(last, sorted);
    }
  }

  // ---------------------------------------------------------------------------
  // What the layout promises
  // ---------------------------------------------------------------------------

  /** Inside the cluster: never past `maxClusterX - width`, and not before
      `minClusterX` when the building fits. */
  ghost predicate InCluster(b: Building, c: Cluster)
  {
    b.x <= c.maxX - b.width && (c.minX <= c.maxX - b.width ==> c.minX <= b.x)
  }

  lemma {:induction false} FindBuildingXClear(vals: seq<Fraction>, k: nat, attempts: nat, placed: seq<Building>, c: Cluster, w: real)
    ensures var spot := FindBuildingX(vals, k, attempts, placed, c, w);
      spot.next >= k &&
      (spot.x.Some? ==>
         !OverlapsPlaced(spot.x.value, w, placed) &&
         spot.x.value <= c.maxX - w && (c.minX <= c.maxX - w ==> c.minX <= spot.x.value))
    decreases BuildingAttempts - attempts
  {
    if attempts < BuildingAttempts {
      var x := CandidateX(Val(vals, k), c, w);
      if OverlapsPlaced(x, w, placed) {
        FindBuildingXClear(vals, k + 1, attempts + 1, placed, c, w);
      }
    }
  }

  /** Adding a clear candidate keeps every pair apart. */
  lemma AppendApart(placed: seq<Building>, b: Building)
    requires AllApart(placed) && !OverlapsPlaced(b.x, b.width, placed)
    ensures AllApart(placed + [b])
  {
    var s := placed + [b];
    forall a, j | 0 <= a < j < |s|
      ensures Apart(s[a], s[j])
    {
      if j == |placed| {
        assert s[a] == placed[a];
        assert b.x + b.width + BuildingGap <= placed[a].x || placed[a].x + placed[a].width + BuildingGap <= b.x;
      } else {
        assert s[a] == placed[a] && s[j] == placed[j];
      }
    }
  }

  ghost predicate AllInCluster(s: seq<Building>, c: Cluster)
  {
    forall a :: 0 <= a < |s| ==> InCluster(s[a], c)
  }

  lemma AppendInCluster(placed: seq<Building>, b: Building, c: Cluster)
    requires AllInCluster(placed, c) && InCluster(b, c)
    ensures AllInCluster(placed + [b], c)
  {
    var s := placed + [b];
    forall a | 0 <= a < |s|
      ensures InCluster(s[a], c)
    {
      if a < |placed| {
        assert s[a] == placed[a];
      }
    }
  }

  /** The outer loop keeps every pair apart and every building in the cluster,
      and places at most one building per slot. */
  /** A placed building is clear of every earlier one and inside the cluster; an
      undefined definition needs the value 1.0. */
  lemma BuildingSlotFacts(vals: seq<Fraction>, k: nat, placed: seq<Building>, info: BuildingInfo, c: Cluster)
    ensures var o := BuildingSlot(vals, k, placed, info, c);
      (o.PlacedAt? ==> !OverlapsPlaced(o.building.x, o.building.width, placed) && InCluster(o.building, c) && o.next > k) &&
      (o.Undefined? && |info.definitions| > 0 ==> Val(vals, k) == 1.0)
  {
    var index := DefinitionIndex(Val(vals, k), |info.definitions|);
    if index < |info.definitions| {
      var d := info.definitions[index];
      FindBuildingXClear(vals, k + 1, 0, placed, c, DisplaySize(d.width, info));
    }
  }

  lemma {:induction false} PlaceBuildingsKeeps(vals: seq<Fraction>, i: nat, n: nat, k: nat, placed: seq<Building>, info: BuildingInfo, c: Cluster)
    requires AllApart(placed) && AllInCluster(placed, c)
    ensures var r := PlaceBuildings(vals, i, n, k, placed, info, c);
      r.Ok? ==> (AllApart(r.value) && AllInCluster(r.value, c) &&
                 |placed| <= |r.value| <= |placed| + (if n > i then n - i else 0))
    decreases n - i
  {
    if i < n {
      var o := BuildingSlot(vals, k, placed, info, c);
      BuildingSlotFacts(vals, k, placed, info, c);
      if o.PlacedAt? {
        AppendApart(placed, o.building);
        AppendInCluster(placed, o.building, c);
        PlaceBuildingsKeeps(vals, i + 1, n, o.next, placed + [o.building], info, c);
      }
    }
  }

  /** With every value below 1.0 the layout never fails. */
  lemma {:induction false} PlaceBuildingsDefined(vals: seq<Fraction>, i: nat, n: nat, k: nat, placed: seq<Building>, info: BuildingInfo, c: Cluster)
    requires |info.definitions| > 0
    requires forall m :: 0 <= m < |vals| ==> vals[m] < 1.0
    ensures PlaceBuildings(vals, i, n, k, placed, info, c).Ok?
    decreases n - i
  {
    if i < n {
      var o := BuildingSlot(vals, k, placed, info, c);
      BuildingSlotFacts(vals, k, placed, info, c);
      if o.PlacedAt? {
        PlaceBuildingsDefined(vals, i + 1, n, o.next, placed + [o.building], info, c);
      }
    }
  }

  /** What the layout promises, for every stream: nothing without a village or
      without definitions; otherwise at most the drawn count of buildings, sorted
      by `x`, pairwise at least 32 apart, inside the cluster; and no failure unless
      some value is exactly 1.0. */
  lemma LayoutFacts(vals: seq<Fraction>, biome: Option<BiomeName>, villageType: VillageType, villageX: real, worldWidth: int)
    ensures var r := LayoutFrom(vals, biome, villageType, villageX, worldWidth);
      (villageType == NoVillage || biome.None? ==> r == Ok([])) &&
      ((forall m :: 0 <= m < |vals| ==> vals[m] < 1.0) ==> r.Ok?) &&
      (r.Ok? && villageType != NoVillage && biome.Some? ==>
        var info := BiomeBuildingInfo(biome).value;
        var n := BuildingCount(villageType, Val(vals, 0));
        var c := ClusterFor(n, info.displayScaleFactor, villageX, worldWidth);
        |r.value| <= n && SortedByX(r.value) && AllApart(r.value) && AllInCluster(r.value, c))
  {
    if villageType != NoVillage && biome.Some? {
      var info := BiomeBuildingInfo(biome).value;
      var n := BuildingCount(villageType, Val(vals, 0));
      var c := ClusterFor(n, info.displayScaleFactor, villageX, worldWidth);
      PlaceBuildingsKeeps(vals, 0, n, 1, [], info, c);
      if forall m :: 0 <= m < |vals| ==> vals[m] < 1.0 {
        PlaceBuildingsDefined(vals, 0, n, 1, [], info, c);
      }
      var p := PlaceBuildings(vals, 0, n, 1, [], info, c);
      if p.Ok? {
        var placed := p.value;
        SortByXFacts(placed);
        SortByXApart(placed);
        var sorted := SortByX(placed);
        assert |sorted| == |placed| by {
          assert |multiset(sorted)| == |multiset(placed)|;
        }
        forall a | 0 <= a < |sorted|
          ensures InCluster(sorted[a], c)
        {
          assert sorted[a] in multiset(placed);
          var m :| 0 <= m < |placed| && placed[m] == sorted[a];
        }
      }
    }
  }
}
