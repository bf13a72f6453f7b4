/** A room of the server and one pass of the game loop over it (the body of the
    `setInterval` callback for one entry of `rooms`): every player moves, sways
    the grass it walks through and moves its fishing float, then every insect
    moves.

    The loops are the method `TickRoom` and its helpers; they are proved equal
    to `RoomAfterTick`, a closed-form description of the room after the pass.
    `Date.now()` is the parameter `now` (one value for the whole pass), and
    `Math.sin` and `Math.cos` are the parameters `sin` and `cos`. */
module Rooms {
  import opened Common
  import opened WorldGen
  import opened RoomSetup
  import opened Players

  datatype Room = Room(
    id: string, name: string, hostId: string,
    players: map<string, Player>, playerOrder: seq<string>,
    gameData: GameData, playerInputs: map<string, PlayerInput>)

  /** `for (const playerId in room.players)` visits the keys in insertion order:
      `playerOrder` lists the keys of `players`, each once. */
  predicate OrderMatches(room: Room)
  {
    (forall id :: id in room.players ==> id in room.playerOrder) &&
    (forall id :: id in room.playerOrder ==> id in room.players) &&
    (forall i, j :: 0 <= i < j < |room.playerOrder| ==> room.playerOrder[i] != room.playerOrder[j])
  }

  /** `room.playerInputs[playerId] || { keys: {} }`. */
  function InputFor(room: Room, id: string): PlayerInput
  {
    if id in room.playerInputs then room.playerInputs[id] else NoInput
  }

  /** `room.gameData?.worldWidth || WORLD_WIDTH_MIN`: a width of 0 reads as the minimum. */
  function TickWorldWidth(g: GameData): (w: int)
    ensures w != 0 && (g.worldWidth != 0 ==> w == g.worldWidth)
  {
    if g.worldWidth == 0 then WorldWidthMin else g.worldWidth
  }

  // ---------------------------------------------------------------------------
  // Grass
  // ---------------------------------------------------------------------------

  const GrassSwayDuration: real := 1800.0
  /** `GRASS_SPRITE_WIDTH`, `32 * 3.8`. */
  const GrassSpriteWidth: real := 121.6

  datatype Box = Box(x: real, y: real, width: real, height: real)

  /** The strict rectangle intersection test of the tick. */
  predicate Overlaps(a: Box, b: Box)
  {
    a.x < b.x + b.width && a.x + a.width > b.x && a.y < b.y + b.height && a.y + a.height > b.y
  }

  /** The player's feet: the middle half of its width, the bottom fifth of its height. */
  function PlayerHitbox(p: Player): Box
  {
    Box(p.x + PlayerSize * 0.25, p.y + PlayerSize * 0.8, PlayerSize * 0.5, PlayerSize * 0.2)
  }

  /** A strip 20 high above the plant's base, half a sprite wide. */
  function GrassHitbox(g: GroundPlant): Box
  {
    Box(g.x, g.y - 20.0, GrassSpriteWidth / 2.0, 20.0)
  }

  /** A walking player whose feet overlap the plant. */
  predicate Touches(p: Player, g: GroundPlant)
  {
    p.isWalking && Overlaps(PlayerHitbox(p), GrassHitbox(g))
  }

  predicate SwayExpired(g: GroundPlant, now: real)
  {
    g.swaying && now - g.swayStartTime > GrassSwayDuration
  }

  /** A plant under one player: an expired sway stops; a plant at rest that the
      player walks through starts swaying now. */
  function GrassStep(g: GroundPlant, p: Player, now: real): GroundPlant
  {
    var g1 := if SwayExpired(g, now) then g.(swaying := false) else g;
    if !g1.swaying && Touches(p, g1) then g1.(swaying := true, swayStartTime := now) else g1
  }

  /** A plant after the grass passes of the first `n` moved players of `movers`, in order. */
  function GrassPrefix(g: GroundPlant, movers: seq<Player>, n: nat, now: real): GroundPlant
    requires n <= |movers|
  {
    if n == 0 then g else GrassStep(GrassPrefix(g, movers, n - 1, now), movers[n - 1], now)
  }

  /** A plant after the grass passes of all the moved players. */
  function GrassAfter(g: GroundPlant, movers: seq<Player>, now: real): GroundPlant
  {
    GrassPrefix(g, movers, |movers|, now)
  }

  /** A sway that is still running. */
  predicate StillSwaying(g: GroundPlant, now: real)
  {
    g.swaying && !(now - g.swayStartTime > GrassSwayDuration)
  }

  /** Some of the first `n` movers touches the plant. */
  predicate TouchedBy(movers: seq<Player>, n: nat, g: GroundPlant)
    requires n <= |movers|
  {
    exists k :: 0 <= k < n && Touches(movers[k], g)
  }

  /** What the passes do to a plant: with no player nothing happens; otherwise a
      running sway goes on untouched, and a plant at rest (or whose sway expired)
      sways from `now` exactly when some walking player touches it, and rests
      otherwise. */
  lemma {:induction false} GrassPrefixClosedForm(g: GroundPlant, movers: seq<Player>, n: nat, now: real)
    requires n <= |movers|
    ensures n == 0 ==> GrassPrefix(g, movers, n, now) == g
    ensures n > 0 ==> (GrassPrefix(g, movers, n, now) ==
      if StillSwaying(g, now) then g
      else if TouchedBy(movers, n, g) then g.(swaying := true, swayStartTime := now)
      else g.(swaying := false))
  {
    if n > 1 {
      GrassPrefixClosedForm(g, movers, n - 1, now);
      if !StillSwaying(g, now) && !TouchedBy(movers, n - 1, g) && !Touches(movers[n - 1], g) {
        assert !TouchedBy(movers, n, g);
      }
    }
  }

  /** The closed form for the whole tick, whatever the players' order. */
  lemma GrassAfterClosedForm(g: GroundPlant, movers: seq<Player>, now: real)
    ensures |movers| == 0 ==> GrassAfter(g, movers, now) == g
    ensures |movers| > 0 ==> (GrassAfter(g, movers, now) ==
      if StillSwaying(g, now) then g
      else if TouchedBy(movers, |movers|, g) then g.(swaying := true, swayStartTime := now)
      else g.(swaying := false))
  {
    GrassPrefixClosedForm(g, movers, |movers|, now);
  }

  /** The order of the players does not matter to the grass. */
  lemma GrassOrderIrrelevant(g: GroundPlant, movers1: seq<Player>, movers2: seq<Player>, now: real)
    requires forall p :: p in movers1 <==> p in movers2
    ensures GrassAfter(g, movers1, now) == GrassAfter(g, movers2, now)
  {
    GrassAfterClosedForm(g, movers1, now);
    GrassAfterClosedForm(g, movers2, now);
    if |movers1| > 0 {
      assert movers1[0] in movers2;
    }
    if |movers2| > 0 {
      assert movers2[0] in movers1;
    }
    if TouchedBy(movers1, |movers1|, g) {
      var k :| 0 <= k < |movers1| && Touches(movers1[k], g);
      assert movers1[k] in movers2;
    }
    if TouchedBy(movers2, |movers2|, g) {
      var k :| 0 <= k < |movers2| && Touches(movers2[k], g);
      assert movers2[k] in movers1;
    }
  }

  /** The `forEach` over `room.gameData.groundPlants` for one moved player. */
  method SwayGrass(plants: seq<GroundPlant>, player: Player, now: real) returns (r: seq<GroundPlant>)
    ensures |r| == |plants|
    ensures forall i :: 0 <= i < |r| ==> r[i] == GrassStep(plants[i], player, now)
  {
    r := plants;
    var i := 0;
    while i < |r|
      invariant 0 <= i <= |r| == |plants|
      invariant forall k :: 0 <= k < i ==> r[k] == GrassStep(plants[k], player, now)
      invariant forall k :: i <= k < |r| ==> r[k] == plants[k]
    {
      var grass := r[i];
      if grass.swaying && now - grass.swayStartTime > GrassSwayDuration {
        grass := grass.(swaying := false);
      }
      if !grass.swaying && player.isWalking && Overlaps(PlayerHitbox(player), GrassHitbox(grass)) {
        grass := grass.(swaying := true, swayStartTime := now);
      }
      r := r[i := grass];
      i := i + 1;
    }
  }

  // ---------------------------------------------------------------------------
  // Insects
  // ---------------------------------------------------------------------------

  /** The tick's `insectMinY`, `DEDICATED_GAME_HEIGHT * (1 - INSECT_TOP_BOUNDARY_FACTOR)`. */
  const InsectTickMinY: real := 432.0
  const InsectMaxRotation: real := 50.0
  /** `INSECT_ANIMATION_SPEED_TICKS * 2`. */
  const InsectFrameCycle: nat := 16

  /** One tick of an insect: the anchor drifts and the drift turns back outside
      the world; the insect oscillates around the anchor and `baseY`, clamped
      vertically; it leans with its horizontal speed, clamped to ±50. */
  function InsectStep(insect: Insect, now: real, worldWidth: int, groundLevel: int, sin: real -> real, cos: real -> real): Insect
  {
    var time := now / 1000.0 + insect.timeOffset;
    var phaseX := time * insect.hSpeed;
    var phaseY := time * insect.vSpeed;
    var anchorX := insect.anchorX + insect.drift;
    var drift := if anchorX < 0.0 || anchorX > worldWidth as real then -insect.drift else insect.drift;
    var y := insect.baseY + cos(phaseY) * insect.vAmp;
    var lean := cos(phaseX) * insect.hAmp * insect.hSpeed * 0.5;
    insect.(anchorX := anchorX, drift := drift,
            x := anchorX + sin(phaseX) * insect.hAmp,
            y := Max(InsectTickMinY, Min(InsectMaxY(groundLevel), y)),
            angle := Max(-InsectMaxRotation, Min(InsectMaxRotation, lean)),
            animationFrame := (insect.animationFrame + 1) % InsectFrameCycle)
  }

  /** After a tick an insect is below the top boundary and (when the ground
      leaves room for it) above the ground, leans at most 50 degrees, and its
      frame counter stays in its cycle; the anchor moved by the old drift, and
      the drift keeps its size and flips exactly when the anchor left the world.
      Nothing else of the insect changes. */
  lemma InsectStepFacts(insect: Insect, now: real, worldWidth: int, groundLevel: int, sin: real -> real, cos: real -> real)
    ensures var q := InsectStep(insect, now, worldWidth, groundLevel, sin, cos);
      InsectTickMinY <= q.y &&
      (InsectTickMinY <= InsectMaxY(groundLevel) ==> q.y <= InsectMaxY(groundLevel)) &&
      -InsectMaxRotation <= q.angle <= InsectMaxRotation &&
      q.animationFrame < InsectFrameCycle &&
      (insect.animationFrame < InsectFrameCycle ==> q.animationFrame == (insect.animationFrame + 1) % InsectFrameCycle) &&
      q.anchorX == insect.anchorX + insect.drift &&
      Abs(q.drift) == Abs(insect.drift) &&
      (q.anchorX < 0.0 || q.anchorX > worldWidth as real ==> q.drift == -insect.drift) &&
      (0.0 <= q.anchorX <= worldWidth as real ==> q.drift == insect.drift) &&
      q == insect.(anchorX := q.anchorX, drift := q.drift, x := q.x, y := q.y, angle := q.angle, animationFrame := q.animationFrame)
  {
  }

  /** The `forEach` over `room.gameData.insects`. */
  method MoveInsects(insects: seq<Insect>, now: real, worldWidth: int, groundLevel: int, sin: real -> real, cos: real -> real)
      returns (r: seq<Insect>)
    ensures |r| == |insects|
    ensures forall i :: 0 <= i < |r| ==> r[i] == InsectStep(insects[i], now, worldWidth, groundLevel, sin, cos)
  {
    r := insects;
    var i := 0;
    while i < |r|
      invariant 0 <= i <= |r| == |insects|
      invariant forall k :: 0 <= k < i ==> r[k] == InsectStep(insects[k], now, worldWidth, groundLevel, sin, cos)
      invariant forall k :: i <= k < |r| ==> r[k] == insects[k]
    {
      r := r[i := InsectStep(r[i], now, worldWidth, groundLevel, sin, cos)];
      i := i + 1;
    }
  }

  // ---------------------------------------------------------------------------
  // The room
  // ---------------------------------------------------------------------------

  /** A player after the movement part of its tick. */
  function Moved(room: Room, id: string): Player
    requires id in room.players
  {
    PlayerMotion(room.players[id], InputFor(room, id), TickWorldWidth(room.gameData), GroundTop(room.gameData.groundLevel))
  }

  /** The moved players, in the order the loop visits them. */
  function Movers(room: Room): (movers: seq<Player>)
    requires OrderMatches(room)
    ensures |movers| == |room.playerOrder|
  {
    seq(|room.playerOrder|, k requires 0 <= k < |room.playerOrder| => Moved(room, room.playerOrder[k]))
  }

  /** Every player after its whole tick: motion, then the rod. */
  function TickedPlayers(room: Room, sin: real -> real, cos: real -> real): map<string, Player>
  {
    map id | id in room.players :: FishingTick(Moved(room, id), sin, cos)
  }

  /** Each ticked player stays within the world and above the ground, never
      walks and idles at once, and keeps its animation counters in their cycles. */
  lemma TickedPlayersFacts(room: Room, sin: real -> real, cos: real -> real)
    ensures var ps := TickedPlayers(room, sin, cos);
      var w := TickWorldWidth(room.gameData);
      ps.Keys == room.players.Keys &&
      (forall id :: id in ps ==>
        0.0 <= ps[id].x && (w as real >= PlayerSize ==> ps[id].x <= w as real - PlayerSize) &&
        ps[id].y <= GroundTop(room.gameData.groundLevel) &&
        !(ps[id].isWalking && ps[id].isIdle) &&
        (FramesInRange(room.players[id]) ==> FramesInRange(ps[id])))
  {
    var ps := TickedPlayers(room, sin, cos);
    forall id | id in ps
      ensures var w := TickWorldWidth(room.gameData);
        0.0 <= ps[id].x && (w as real >= PlayerSize ==> ps[id].x <= w as real - PlayerSize) &&
        ps[id].y <= GroundTop(room.gameData.groundLevel) &&
        !(ps[id].isWalking && ps[id].isIdle) &&
        (FramesInRange(room.players[id]) ==> FramesInRange(ps[id]))
    {
      PlayerTickFacts(room.players[id], InputFor(room, id), TickWorldWidth(room.gameData), GroundTop(room.gameData.groundLevel), sin, cos);
    }
  }

  /** The room after one pass of the game loop. */
  function RoomAfterTick(room: Room, now: real, sin: real -> real, cos: real -> real): Room
    requires OrderMatches(room)
  {
    var g := room.gameData;
    var movers := Movers(room);
    room.(
      players := TickedPlayers(room, sin, cos),
      gameData := g.(
        groundPlants := seq(|g.groundPlants|, i requires 0 <= i < |g.groundPlants| => GrassAfter(g.groundPlants[i], movers, now)),
        insects := seq(|g.insects|, i requires 0 <= i < |g.insects| =>
          InsectStep(g.insects[i], now, TickWorldWidth(g), g.groundLevel, sin, cos))))
  }

  /** The loop body of the game loop for one room, in the source's order. */
  method TickRoom(room: Room, now: real, sin: real -> real, cos: real -> real) returns (r: Room)
    requires OrderMatches(room)
    ensures r == RoomAfterTick(room, now, sin, cos)
  {
    var g := room.gameData;
    ghost var target := TickedPlayers(room, sin, cos);
    var players, plants, moved := MovePlayers(room, now, sin, cos, target);
    MovedAreMovers(room, moved);
    var insects := MoveInsects(g.insects, now, TickWorldWidth(g), g.groundLevel, sin, cos);
    r := room.(players := players, gameData := g.(groundPlants := plants, insects := insects));
  }

  /** The `for...in` loop over the players: each moves, passes over the grass,
      then moves its float. `moved` collects the moved players in visiting order. */
  method MovePlayers(room: Room, now: real, sin: real -> real, cos: real -> real, ghost target: map<string, Player>)
      returns (players: map<string, Player>, plants: seq<GroundPlant>, ghost moved: seq<Player>)
    requires OrderMatches(room)
    requires target.Keys == room.players.Keys
    requires forall id {:trigger Moved(room, id)} :: id in target ==> target[id] == FishingTick(Moved(room, id), sin, cos)
    ensures players == target
    ensures |moved| == |room.playerOrder|
    ensures forall k {:trigger Moved(room, room.playerOrder[k])} ::
      0 <= k < |moved| ==> moved[k] == Moved(room, room.playerOrder[k])
    ensures |plants| == |room.gameData.groundPlants|
    ensures forall i :: 0 <= i < |plants| ==> plants[i] == GrassAfter(room.gameData.groundPlants[i], moved, now)
  {
    players := room.players;
    plants := room.gameData.groundPlants;
    moved := [];
    var j := 0;
    while j < |room.playerOrder|
      invariant 0 <= j <= |room.playerOrder|
      invariant players == Overlay(room.players, target, room.playerOrder, j)
      invariant |moved| == j
      invariant forall k {:trigger Moved(room, room.playerOrder[k])} ::
        0 <= k < j ==> moved[k] == Moved(room, room.playerOrder[k])
      invariant |plants| == |room.gameData.groundPlants|
      invariant forall i :: 0 <= i < |plants| ==> plants[i] == GrassAfter(room.gameData.groundPlants[i], moved, now)
    {
      players, plants, moved := PlayerTurn(room, now, sin, cos, target, j, players, plants, moved);
      j := j + 1;
    }
    OverlayAll(room.players, target, room.playerOrder);
  }

  /** One iteration of the loop over the players: the player `playerOrder[j]`
      moves, passes over the grass and moves its float. */
  method PlayerTurn(room: Room, now: real, sin: real -> real, cos: real -> real, ghost target: map<string, Player>,
                    j: nat, players: map<string, Player>, plants: seq<GroundPlant>, ghost moved: seq<Player>)
      returns (players1: map<string, Player>, plants1: seq<GroundPlant>, ghost moved1: seq<Player>)
    requires OrderMatches(room) && j < |room.playerOrder|
    requires target.Keys == room.players.Keys
    requires forall id {:trigger Moved(room, id)} :: id in target ==> target[id] == FishingTick(Moved(room, id), sin, cos)
    requires players == Overlay(room.players, target, room.playerOrder, j)
    requires |moved| == j
    requires forall k {:trigger Moved(room, room.playerOrder[k])} ::
      0 <= k < j ==> moved[k] == Moved(room, room.playerOrder[k])
    requires |plants| == |room.gameData.groundPlants|
    requires forall i :: 0 <= i < |plants| ==> plants[i] == GrassAfter(room.gameData.groundPlants[i], moved, now)
    ensures players1 == Overlay(room.players, target, room.playerOrder, j + 1)
    ensures |moved1| == j + 1
    ensures forall k {:trigger Moved(room, room.playerOrder[k])} ::
      0 <= k < j + 1 ==> moved1[k] == Moved(room, room.playerOrder[k])
    ensures |plants1| == |room.gameData.groundPlants|
    ensures forall i :: 0 <= i < |plants1| ==> plants1[i] == GrassAfter(room.gameData.groundPlants[i], moved1, now)
  {
    var id := room.playerOrder[j];
    NotYetVisited(room, j);
    OverlayEntries(room.players, target, room.playerOrder, j);
    var player := PlayerMotion(players[id], InputFor(room, id), TickWorldWidth(room.gameData), GroundTop(room.gameData.groundLevel));
    assert player == Moved(room, id);
    plants1 := GrassTurn(room.gameData.groundPlants, now, moved, player, plants);
    moved1 := moved + [player];
    var ticked := FishingTick(player, sin, cos);
    players1 := players[id := ticked];
  }

  /** The grass pass of one more player extends the passes before it. */
  method GrassTurn(plants0: seq<GroundPlant>, now: real, ghost moved: seq<Player>, player: Player, plants: seq<GroundPlant>)
      returns (plants1: seq<GroundPlant>)
    requires |plants| == |plants0|
    requires forall i :: 0 <= i < |plants| ==> plants[i] == GrassAfter(plants0[i], moved, now)
    ensures |plants1| == |plants0|
    ensures forall i :: 0 <= i < |plants1| ==> plants1[i] == GrassAfter(plants0[i], moved + [player], now)
  {
    plants1 := SwayGrass(plants, player, now);
    forall i | 0 <= i < |plants1|
      ensures plants1[i] == GrassAfter(plants0[i], moved + [player], now)
    {
      GrassPrefixExtend(plants0[i], moved, player, |moved|, now);
    }
  }

  /** Appending a player does not change the passes of the players before it. */
  lemma {:induction false} GrassPrefixExtend(g: GroundPlant, movers: seq<Player>, p: Player, n: nat, now: real)
    requires n <= |movers|
    ensures GrassPrefix(g, movers + [p], n, now) == GrassPrefix(g, movers, n, now)
  {
    if n > 0 {
      GrassPrefixExtend(g, movers, p, n - 1, now);
      assert (movers + [p])[n - 1] == movers[n - 1];
    }
  }

  /** The players collected by the loop are `Movers(room)`. */
  lemma MovedAreMovers(room: Room, moved: seq<Player>)
    requires OrderMatches(room)
    requires |moved| == |room.playerOrder|
    requires forall k {:trigger Moved(room, room.playerOrder[k])} ::
      0 <= k < |moved| ==> moved[k] == Moved(room, room.playerOrder[k])
    ensures moved == Movers(room)
  {
    var movers := Movers(room);
    forall k | 0 <= k < |moved|
      ensures moved[k] == movers[k]
    {
      assert movers[k] == Moved(room, room.playerOrder[k]);
    }
  }

  /** `base` with the entries of the first `n` ids, in order, replaced by those of `target`. */
  function Overlay<V>(base: map<string, V>, target: map<string, V>, ids: seq<string>, n: nat): map<string, V>
    requires n <= |ids|
  {
    if n == 0 then base
    else
      var m := Overlay(base, target, ids, n - 1);
      if ids[n - 1] in target then m[ids[n - 1] := target[ids[n - 1]]] else m
  }

  /** Overlaying every key of `base`, which are the keys of `target`, gives `target`. */
  lemma OverlayAll<V>(base: map<string, V>, target: map<string, V>, ids: seq<string>)
    requires base.Keys == target.Keys
    requires forall x :: x in target ==> x in ids
    ensures Overlay(base, target, ids, |ids|) == target
  {
    OverlayEntries(base, target, ids, |ids|);
    forall x | x in target
      ensures Overlay(base, target, ids, |ids|)[x] == target[x]
    {
      var k :| 0 <= k < |ids| && ids[k] == x;
    }
  }

  lemma {:induction false} OverlayEntries<V>(base: map<string, V>, target: map<string, V>, ids: seq<string>, n: nat)
    requires base.Keys == target.Keys && n <= |ids|
    ensures Overlay(base, target, ids, n).Keys == base.Keys
    ensures forall k :: 0 <= k < n && ids[k] in target ==> Overlay(base, target, ids, n)[ids[k]] == target[ids[k]]
    ensures forall x :: x in base && (forall k :: 0 <= k < n ==> ids[k] != x) ==> Overlay(base, target, ids, n)[x] == base[x]
  {
    if n > 0 {
      OverlayEntries(base, target, ids, n - 1);
    }
  }

  /** The player visited at step `j` was not visited before. */
  lemma NotYetVisited(room: Room, j: nat)
    requires OrderMatches(room) && j < |room.playerOrder|
    ensures room.playerOrder[j] in room.players
    ensures forall k :: 0 <= k < j ==> room.playerOrder[k] != room.playerOrder[j]
  {
    assert room.playerOrder[j] in room.playerOrder;
  }

  /** What a pass promises for the players: the same players in the same
      order, each within the world and above the ground, never walking and
      idling at once, with its animation counters in their cycles. */
  lemma RoomAfterTickPlayers(room: Room, now: real, sin: real -> real, cos: real -> real)
    requires OrderMatches(room)
    ensures var r := RoomAfterTick(room, now, sin, cos);
      var w := TickWorldWidth(room.gameData);
      r.id == room.id && r.name == room.name && r.hostId == room.hostId &&
      r.players.Keys == room.players.Keys && r.playerOrder == room.playerOrder && OrderMatches(r) &&
      r.playerInputs == room.playerInputs &&
      (forall id :: id in r.players ==>
        0.0 <= r.players[id].x && (w as real >= PlayerSize ==> r.players[id].x <= w as real - PlayerSize) &&
        r.players[id].y <= GroundTop(room.gameData.groundLevel) &&
        !(r.players[id].isWalking && r.players[id].isIdle) &&
        (FramesInRange(room.players[id]) ==> FramesInRange(r.players[id])))
  {
    TickedPlayersFacts(room, sin, cos);
  }

  /** What a pass promises for the world: the plants and insects keep their
      number, trees and buildings stay, and every insect stays below the top
      boundary, tilted at most 50 degrees, with its frame in its cycle. */
  lemma RoomAfterTickWorld(room: Room, now: real, sin: real -> real, cos: real -> real)
    requires OrderMatches(room)
    ensures var r := RoomAfterTick(room, now, sin, cos);
      |r.gameData.groundPlants| == |room.gameData.groundPlants| &&
      |r.gameData.insects| == |room.gameData.insects| &&
      r.gameData.trees == room.gameData.trees && r.gameData.placedBuildings == room.gameData.placedBuildings &&
      r.gameData.worldWidth == room.gameData.worldWidth && r.gameData.groundLevel == room.gameData.groundLevel &&
      (forall i :: 0 <= i < |r.gameData.insects| ==>
        InsectTickMinY <= r.gameData.insects[i].y &&
        -InsectMaxRotation <= r.gameData.insects[i].angle <= InsectMaxRotation &&
        r.gameData.insects[i].animationFrame < InsectFrameCycle)
  {
    var r := RoomAfterTick(room, now, sin, cos);
    forall i | 0 <= i < |r.gameData.insects|
      ensures InsectTickMinY <= r.gameData.insects[i].y &&
        -InsectMaxRotation <= r.gameData.insects[i].angle <= InsectMaxRotation &&
        r.gameData.insects[i].animationFrame < InsectFrameCycle
    {
      InsectStepFacts(room.gameData.insects[i], now, TickWorldWidth(room.gameData), room.gameData.groundLevel, sin, cos);
    }
  }
}
