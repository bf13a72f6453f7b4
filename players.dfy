/** A player as the server keeps it inside a room, and what happens to it: the
    per-tick physics of the `setInterval` body (steering, horizontal and vertical
    motion, the walking/idle flags and frame counters, the fishing float), the
    actions `playerJump`, `castFishingLine` and `reelInFishingLine`, and the rod
    geometry of `getArmRotationAngle` and `calculateRodTipWorldPosition`.

    Positions and velocities are reals; `Math.sin` and `Math.cos` are parameters
    `sin` and `cos`. */
module Players {
  import opened Common
  import opened WorldGen

  const PlayerSize: real := 128.0
  const Gravity: real := 1.6
  const JumpStrength: real := -25.0
  const PlayerWalkSpeed: real := 14.0
  const DecelerationFactor: real := 0.8
  const MinVelocityForWalkAnimation: real := 0.5
  const AnimationCycleLength: real := 30.0
  const IdleAnimCycleLength: int := 60
  const WaterTopY: real := GameHeight - 164.0
  const FloatGravity: real := 0.3
  const FloatWaterFriction: real := 0.9
  const FloatHitboxRadius: real := 16.0
  const CastingPowerMultiplier: real := 20.0
  const FloatStopSpeed: real := 0.1

  /** Where an unanchored float comes to rest: the water line minus the float's radius. */
  const FloatRestY: real := WaterTopY - FloatHitboxRadius

  /** A value of a customization record: an item name or a colour setting. */
  datatype CustomValue = Text(text: string) | Number(number: real)

  type Customizations = map<string, CustomValue>

  /** The customizations every new connection starts with. */
  function DefaultCustomizations(): Customizations
  {
    map[
      "hat" := Text("none"), "hair" := Text("none"), "accessories" := Text("none"), "beard" := Text("none"),
      "clothes" := Text("none"), "pants" := Text("none"), "shoes" := Text("none"), "rightHandItem" := Text("none"),
      "hairSaturation" := Number(100.0), "hairHue" := Number(180.0), "hairBrightness" := Number(50.0),
      "beardSaturation" := Number(100.0), "beardHue" := Number(0.0), "beardBrightness" := Number(100.0)]
  }

  /** `customizations.rightHandItem === 'rod'`. */
  predicate HoldsRod(c: Customizations)
  {
    "rightHandItem" in c && c["rightHandItem"] == Text("rod")
  }

  /** `Object.assign(target, source)`: every key of `source` overwrites. */
  function Assign(target: Customizations, source: Customizations): (r: Customizations)
    ensures r.Keys == target.Keys + source.Keys
    ensures forall k :: k in source ==> r[k] == source[k]
    ensures forall k :: k in target && k !in source ==> r[k] == target[k]
  {
    target + source
  }

  /** An entry of `playerInputs`: the keys the client reports held, and its mouse. */
  datatype PlayerInput = PlayerInput(keys: map<string, bool>, currentMouseX: Option<real>, currentMouseY: Option<real>)

  /** `{ keys: {} }`, used for a player without an input entry, and the entry a
      joining player gets. */
  const NoInput: PlayerInput := PlayerInput(map[], None, None)

  predicate KeyHeld(keys: map<string, bool>, key: string)
  {
    key in keys && keys[key]
  }

  datatype Player = Player(
    id: string, x: real, y: real, color: string,
    isJumping: bool, velocityY: real, username: string,
    isWalking: bool, animationFrame: real, isIdle: bool, idleAnimationFrame: int,
    direction: int, velocityX: real,
    currentMouseX: Option<real>, currentMouseY: Option<real>,
    customizations: Customizations,
    hasLineCast: bool, floatWorldX: Option<real>, floatWorldY: Option<real>,
    floatVelocityX: real, floatVelocityY: real,
    lineAnchorWorldX: Option<real>, lineAnchorWorldY: Option<real>,
    rodTipWorldX: Option<real>, rodTipWorldY: Option<real>)

  /** `DEDICATED_GAME_HEIGHT - groundLevel - PLAYER_SIZE`: the top of a player standing on the ground. */
  function GroundTop(groundLevel: int): real
  {
    GameHeight - groundLevel as real - PlayerSize
  }

  /** The record a creating or joining player gets: at x = 50, standing, idle, no line. */
  function NewPlayer(id: string, color: string, username: string, customizations: Customizations, groundLevel: int): (p: Player)
    ensures p.x == 50.0 && p.y == GroundTop(groundLevel) && !p.isJumping && p.isIdle && !p.isWalking
    ensures p.customizations == customizations && !p.hasLineCast && p.lineAnchorWorldY.None?
  {
    Player(
      id, 50.0, GroundTop(groundLevel), color,
      false, 0.0, username,
      false, 0.0, true, 0,
      1, 0.0,
      None, None,
      customizations,
      false, None, None,
      0.0, 0.0,
      None, None,
      None, None)
  }

  // ---------------------------------------------------------------------------
  // JavaScript arithmetic
  // ---------------------------------------------------------------------------

  /** JavaScript's `%` on reals: the remainder takes the sign of the dividend. */
  function JsRem(a: real, m: real): (r: real)
    requires m > 0.0
    ensures a >= 0.0 ==> 0.0 <= r < m
  {
    if a >= 0.0 then Rem(a, m) else -Rem(-a, m)
  }

  /** JavaScript's `%` on integers. */
  function JsRemInt(a: int, m: int): (r: int)
    requires m > 0
    ensures a >= 0 ==> 0 <= r < m
    ensures a < 0 ==> -m < r <= 0
  {
    if a >= 0 then a % m else -((-a) % m)
  }

  /** `number + null`: JavaScript reads `null` as 0. */
  function PlusNullable(a: Option<real>, b: real): real
  {
    (if a.Some? then a.value else 0.0) + b
  }

  // ---------------------------------------------------------------------------
  // One tick of a player
  // ---------------------------------------------------------------------------

  /** The steering step: a left key wins over a right key; without either the
      velocity decays by 0.8 and stops below 0.5. */
  function Steer(p: Player, input: PlayerInput): Player
  {
    var left := KeyHeld(input.keys, "ArrowLeft") || KeyHeld(input.keys, "KeyA");
    var right := KeyHeld(input.keys, "ArrowRight") || KeyHeld(input.keys, "KeyD");
    if left then p.(velocityX := -PlayerWalkSpeed, direction := -1)
    else if right then p.(velocityX := PlayerWalkSpeed, direction := 1)
    else
      var v := p.velocityX * DecelerationFactor;
      p.(velocityX := if Abs(v) < MinVelocityForWalkAnimation then 0.0 else v)
  }

  lemma SteerFacts(p: Player, input: PlayerInput)
    ensures var q := Steer(p, input);
      var left := KeyHeld(input.keys, "ArrowLeft") || KeyHeld(input.keys, "KeyA");
      var right := KeyHeld(input.keys, "ArrowRight") || KeyHeld(input.keys, "KeyD");
      (left ==> q.velocityX == -PlayerWalkSpeed && q.direction == -1) &&
      (!left && right ==> q.velocityX == PlayerWalkSpeed && q.direction == 1) &&
      (!left && !right ==>
         q.direction == p.direction && Abs(q.velocityX) <= Abs(p.velocityX) &&
         (q.velocityX == 0.0 || q.velocityX == p.velocityX * DecelerationFactor) &&
         (q.velocityX == 0.0 <==> Abs(p.velocityX * DecelerationFactor) < MinVelocityForWalkAnimation)) &&
      q == p.(velocityX := q.velocityX, direction := q.direction)
  {
  }

  /** `x += velocityX`, then clamped to `[0, worldWidth - PLAYER_SIZE]`. */
  function MoveHorizontally(p: Player, worldWidth: int): Player
  {
    p.(x := Max(0.0, Min(worldWidth as real - PlayerSize, p.x + p.velocityX)))
  }

  /** Snap a player below the ground up; then, while jumping or in the air, apply
      gravity and land when the ground is reached. */
  function MoveVertically(p: Player, groundTop: real): Player
  {
    var p1 := if p.y > groundTop then p.(y := groundTop, isJumping := false, velocityY := 0.0) else p;
    if p1.isJumping || p1.y < groundTop then
      var vy := p1.velocityY + Gravity;
      var y := p1.y + vy;
      if y >= groundTop then p1.(y := groundTop, isJumping := false, velocityY := 0.0)
      else p1.(y := y, velocityY := vy)
    else p1
  }

  /** Standing on the ground: within one unit of the ground top. */
  predicate OnGround(y: real, groundTop: real)
  {
    groundTop - 1.0 <= y <= groundTop + 1.0
  }

  /** The derived flags and frame counters. */
  function Animate(p: Player, groundTop: real): Player
  {
    var onGround := OnGround(p.y, groundTop);
    var walking := Abs(p.velocityX) > MinVelocityForWalkAnimation && onGround;
    var stationary := Abs(p.velocityX) < MinVelocityForWalkAnimation;
    var idle := !walking && !p.isJumping && stationary && onGround;
    var q := p.(isWalking := walking, isIdle := idle);
    if walking then
      var speedFactor := Abs(p.velocityX / PlayerWalkSpeed);
      q.(animationFrame := JsRem(p.animationFrame + speedFactor, AnimationCycleLength), idleAnimationFrame := 0)
    else if idle then
      q.(animationFrame := 0.0, idleAnimationFrame := JsRemInt(p.idleAnimationFrame + 1, IdleAnimCycleLength))
    else
      q.(animationFrame := 0.0, idleAnimationFrame := 0)
  }

  /** The movement part of a tick for one player, up to copying the mouse. */
  function PlayerMotion(p: Player, input: PlayerInput, worldWidth: int, groundTop: real): Player
  {
    var q := Animate(MoveVertically(MoveHorizontally(Steer(p, input), worldWidth), groundTop), groundTop);
    q.(currentMouseX := input.currentMouseX, currentMouseY := input.currentMouseY)
  }

  /** Counters in their cycles. */
  predicate FramesInRange(p: Player)
  {
    0.0 <= p.animationFrame < AnimationCycleLength && 0 <= p.idleAnimationFrame < IdleAnimCycleLength
  }

  /** The flags never hold together, the counters stay in their cycles and are
      reset when neither flag holds. */
  lemma AnimateFacts(p: Player, groundTop: real)
    ensures var q := Animate(p, groundTop);
      !(q.isWalking && q.isIdle) &&
      (q.isWalking <==> Abs(q.velocityX) > MinVelocityForWalkAnimation && OnGround(q.y, groundTop)) &&
      (q.isIdle <==> !q.isWalking && !q.isJumping && Abs(q.velocityX) < MinVelocityForWalkAnimation && OnGround(q.y, groundTop)) &&
      (!q.isWalking && !q.isIdle ==> q.animationFrame == 0.0 && q.idleAnimationFrame == 0) &&
      (q.isWalking ==> q.idleAnimationFrame == 0) && (q.isIdle ==> q.animationFrame == 0.0) &&
      (FramesInRange(p) ==> FramesInRange(q)) &&
      q == p.(isWalking := q.isWalking, isIdle := q.isIdle, animationFrame := q.animationFrame, idleAnimationFrame := q.idleAnimationFrame)
  {
    if FramesInRange(p) {
      var speedFactor := Abs(p.velocityX / PlayerWalkSpeed);
      assert p.animationFrame + speedFactor >= 0.0;
    }
  }

  lemma MoveHorizontallyFacts(p: Player, worldWidth: int)
    ensures var q := MoveHorizontally(p, worldWidth);
      0.0 <= q.x && (worldWidth as real >= PlayerSize ==> q.x <= worldWidth as real - PlayerSize) &&
      (0.0 <= p.x + p.velocityX <= worldWidth as real - PlayerSize ==> q.x == p.x + p.velocityX) &&
      q == p.(x := q.x)
  {
  }

  /** What a tick's motion promises: the clamps, the flags and counters, and the
      mouse copied from the input. */
  lemma PlayerMotionFacts(p: Player, input: PlayerInput, worldWidth: int, groundTop: real)
    ensures var q := PlayerMotion(p, input, worldWidth, groundTop);
      0.0 <= q.x && (worldWidth as real >= PlayerSize ==> q.x <= worldWidth as real - PlayerSize) &&
      q.y <= groundTop &&
      !(q.isWalking && q.isIdle) &&
      (q.isWalking ==> Abs(q.velocityX) > MinVelocityForWalkAnimation && OnGround(q.y, groundTop)) &&
      (q.isIdle ==> !q.isJumping && Abs(q.velocityX) < MinVelocityForWalkAnimation && OnGround(q.y, groundTop)) &&
      (!q.isWalking && !q.isIdle ==> q.animationFrame == 0.0 && q.idleAnimationFrame == 0) &&
      (FramesInRange(p) ==> FramesInRange(q)) &&
      q.currentMouseX == input.currentMouseX && q.currentMouseY == input.currentMouseY
  {
    var s := Steer(p, input);
    var h := MoveHorizontally(s, worldWidth);
    MoveHorizontallyFacts(s, worldWidth);
    var v := MoveVertically(h, groundTop);
    MoveVerticallyFacts(h, groundTop);
    var a := Animate(v, groundTop);
    AnimateFacts(v, groundTop);
    assert FramesInRange(p) ==> FramesInRange(v) by {
      SteerFacts(p, input);
    }
    assert PlayerMotion(p, input, worldWidth, groundTop) == a.(currentMouseX := input.currentMouseX, currentMouseY := input.currentMouseY);
  }

  /** A tick's motion leaves the player's identity, customizations and fishing
      line alone. */
  lemma PlayerMotionKeepsLine(p: Player, input: PlayerInput, worldWidth: int, groundTop: real)
    ensures var q := PlayerMotion(p, input, worldWidth, groundTop);
      q.id == p.id && q.username == p.username && q.color == p.color &&
      q.customizations == p.customizations && q.hasLineCast == p.hasLineCast &&
      q.floatWorldX == p.floatWorldX && q.floatWorldY == p.floatWorldY &&
      q.floatVelocityX == p.floatVelocityX && q.floatVelocityY == p.floatVelocityY &&
      q.lineAnchorWorldX == p.lineAnchorWorldX && q.lineAnchorWorldY == p.lineAnchorWorldY &&
      q.rodTipWorldX == p.rodTipWorldX && q.rodTipWorldY == p.rodTipWorldY
  {
    var s := Steer(p, input);
    SteerFacts(p, input);
    var h := MoveHorizontally(s, worldWidth);
    MoveHorizontallyFacts(s, worldWidth);
    var v := MoveVertically(h, groundTop);
    MoveVerticallyFacts(h, groundTop);
    AnimateFacts(v, groundTop);
  }

  /** Landing: a fall that reaches the ground stops on it. A player standing on the
      ground and not jumping does not move vertically. */
  lemma MoveVerticallyFacts(p: Player, groundTop: real)
    ensures var q := MoveVertically(p, groundTop);
      q.y <= groundTop &&
      (p.y > groundTop ==> q.y == groundTop && !q.isJumping && q.velocityY == 0.0) &&
      (p.y <= groundTop && (p.isJumping || p.y < groundTop) && p.y + p.velocityY + Gravity >= groundTop ==>
         q.y == groundTop && !q.isJumping && q.velocityY == 0.0) &&
      (p.y <= groundTop && (p.isJumping || p.y < groundTop) && p.y + p.velocityY + Gravity < groundTop ==>
         q.y == p.y + p.velocityY + Gravity && q.velocityY == p.velocityY + Gravity && q.isJumping == p.isJumping) &&
      (!p.isJumping && p.y == groundTop ==> q == p) &&
      q == p.(y := q.y, isJumping := q.isJumping, velocityY := q.velocityY)
  {
  }

  // ---------------------------------------------------------------------------
  // Fishing
  // ---------------------------------------------------------------------------

  /** `lineAnchorWorldY` is `null` or the float's resting height: the only value
      the tick ever anchors at. */
  predicate AnchorAtRest(p: Player)
  {
    p.lineAnchorWorldY.None? || p.lineAnchorWorldY.value == FloatRestY
  }

  /** The float's motion in a tick, for a player holding the rod: in flight it
      falls and anchors when it reaches the water; once anchored it drifts,
      slowed by friction, at the anchor's height. */
  function FloatStep(p: Player): Player
  {
    if !p.hasLineCast then p
    else if p.lineAnchorWorldY.None? then
      var vy := p.floatVelocityY + FloatGravity;
      var fx := PlusNullable(p.floatWorldX, p.floatVelocityX);
      var fy := PlusNullable(p.floatWorldY, vy);
      if fy + FloatHitboxRadius >= WaterTopY then
        p.(floatWorldX := Some(fx), floatWorldY := Some(FloatRestY), floatVelocityY := 0.0,
           floatVelocityX := p.floatVelocityX * FloatWaterFriction,
           lineAnchorWorldX := Some(fx), lineAnchorWorldY := Some(FloatRestY))
      else p.(floatVelocityY := vy, floatWorldX := Some(fx), floatWorldY := Some(fy))
    else
      var vx := p.floatVelocityX * FloatWaterFriction;
      var fx := PlusNullable(p.floatWorldX, vx);
      p.(floatVelocityX := if Abs(vx) < FloatStopSpeed then 0.0 else vx,
         floatWorldX := Some(fx), floatWorldY := p.lineAnchorWorldY)
  }

  /** Every line and float field cleared (reeling in, or not holding the rod). */
  predicate LineCleared(p: Player)
  {
    !p.hasLineCast && p.floatWorldX.None? && p.floatWorldY.None? &&
    p.floatVelocityX == 0.0 && p.floatVelocityY == 0.0 &&
    p.lineAnchorWorldX.None? && p.lineAnchorWorldY.None?
  }

  function ClearLine(p: Player): Player
  {
    p.(hasLineCast := false, floatWorldX := None, floatWorldY := None,
       floatVelocityX := 0.0, floatVelocityY := 0.0,
       lineAnchorWorldX := None, lineAnchorWorldY := None)
  }

  /** The rod part of a tick: with the rod, the rod tip is recomputed and the float
      moves; without it, the line, the float and the rod tip are cleared. */
  function FishingTick(p: Player, sin: real -> real, cos: real -> real): Player
  {
    if HoldsRod(p.customizations) then
      var tip := RodTipWorldPosition(p, sin, cos);
      FloatStep(p.(rodTipWorldX := tip.0, rodTipWorldY := tip.1))
    else ClearLine(p).(rodTipWorldX := None, rodTipWorldY := None)
  }

  lemma FishingTickFacts(p: Player, sin: real -> real, cos: real -> real)
    ensures var q := FishingTick(p, sin, cos);
      (!HoldsRod(p.customizations) ==> LineCleared(q) && q.rodTipWorldX.None? && q.rodTipWorldY.None?) &&
      (HoldsRod(p.customizations) ==>
         q.hasLineCast == p.hasLineCast && q.rodTipWorldX.Some? && q.rodTipWorldY.Some? &&
         (!p.hasLineCast ==> q.floatWorldX == p.floatWorldX && q.floatWorldY == p.floatWorldY &&
                             q.lineAnchorWorldY == p.lineAnchorWorldY && q.floatVelocityX == p.floatVelocityX) &&
         (p.hasLineCast && AnchorAtRest(p) ==>
            AnchorAtRest(q) && q.floatWorldY.Some? && q.floatWorldY.value <= FloatRestY) &&
         (p.hasLineCast && p.lineAnchorWorldY.Some? ==>
            q.floatWorldY == p.lineAnchorWorldY && q.lineAnchorWorldY == p.lineAnchorWorldY &&
            Abs(q.floatVelocityX) <= Abs(p.floatVelocityX) &&
            (Abs(p.floatVelocityX * FloatWaterFriction) < FloatStopSpeed ==> q.floatVelocityX == 0.0))) &&
      (AnchorAtRest(p) ==> AnchorAtRest(q))
  {
    if HoldsRod(p.customizations) && p.hasLineCast && p.lineAnchorWorldY.Some? {
      var v := p.floatVelocityX;
      if v >= 0.0 {
        assert v * FloatWaterFriction <= v;
      } else {
        assert v * FloatWaterFriction >= v;
      }
    }
  }

  /** The rod part of a tick changes only the line, float and rod tip fields. */
  lemma FishingTickKeepsMotion(p: Player, sin: real -> real, cos: real -> real)
    ensures var q := FishingTick(p, sin, cos);
      q == p.(hasLineCast := q.hasLineCast, floatWorldX := q.floatWorldX, floatWorldY := q.floatWorldY,
              floatVelocityX := q.floatVelocityX, floatVelocityY := q.floatVelocityY,
              lineAnchorWorldX := q.lineAnchorWorldX, lineAnchorWorldY := q.lineAnchorWorldY,
              rodTipWorldX := q.rodTipWorldX, rodTipWorldY := q.rodTipWorldY)
  {
    if HoldsRod(p.customizations) {
      var tip := RodTipWorldPosition(p, sin, cos);
      var p1 := p.(rodTipWorldX := tip.0, rodTipWorldY := tip.1);
      assert FishingTick(p, sin, cos) == FloatStep(p1);
      FloatStepFrame(p1);
    }
  }
  /** A whole player tick (motion, then the rod): the player stays within the
      world and above the ground, never walks and idles at once, and keeps its
      animation counters in their cycles. */
  lemma PlayerTickFacts(p: Player, input: PlayerInput, worldWidth: int, groundTop: real, sin: real -> real, cos: real -> real)
    ensures var q := FishingTick(PlayerMotion(p, input, worldWidth, groundTop), sin, cos);
      0.0 <= q.x && (worldWidth as real >= PlayerSize ==> q.x <= worldWidth as real - PlayerSize) &&
      q.y <= groundTop &&
      !(q.isWalking && q.isIdle) &&
      (FramesInRange(p) ==> FramesInRange(q))
  {
    PlayerMotionFacts(p, input, worldWidth, groundTop);
    FishingTickKeepsMotion(PlayerMotion(p, input, worldWidth, groundTop), sin, cos);
  }


  lemma FloatStepFrame(p: Player)
    ensures var q := FloatStep(p);
      q == p.(floatWorldX := q.floatWorldX, floatWorldY := q.floatWorldY,
              floatVelocityX := q.floatVelocityX, floatVelocityY := q.floatVelocityY,
              lineAnchorWorldX := q.lineAnchorWorldX, lineAnchorWorldY := q.lineAnchorWorldY)
  {
  }

  /** `castFishingLine` for a player: only with the rod and no line out. */
  datatype CastData = CastData(power: real, angle: real, startX: real, startY: real)

  function CastLine(p: Player, data: CastData, cos: real -> real, sin: real -> real): Player
  {
    if HoldsRod(p.customizations) && !p.hasLineCast then
      p.(hasLineCast := true,
         floatVelocityX := data.power * CastingPowerMultiplier * cos(data.angle),
         floatVelocityY := data.power * CastingPowerMultiplier * sin(data.angle),
         floatWorldX := Some(data.startX), floatWorldY := Some(data.startY),
         lineAnchorWorldX := None, lineAnchorWorldY := None)
    else p
  }

  lemma CastLineFacts(p: Player, data: CastData, cos: real -> real, sin: real -> real)
    ensures var q := CastLine(p, data, cos, sin);
      (!(HoldsRod(p.customizations) && !p.hasLineCast) ==> q == p) &&
      (HoldsRod(p.customizations) && !p.hasLineCast ==>
         q.hasLineCast && q.floatWorldX == Some(data.startX) && q.floatWorldY == Some(data.startY) &&
         q.lineAnchorWorldX.None? && q.lineAnchorWorldY.None? && AnchorAtRest(q) &&
         q == p.(hasLineCast := true, floatVelocityX := q.floatVelocityX, floatVelocityY := q.floatVelocityY,
                 floatWorldX := q.floatWorldX, floatWorldY := q.floatWorldY,
                 lineAnchorWorldX := None, lineAnchorWorldY := None))
  {
  }

  /** `reelInFishingLine` for a player: only with a line out. */
  function ReelIn(p: Player): Player
  {
    if p.hasLineCast then ClearLine(p) else p
  }

  lemma ReelInFacts(p: Player)
    ensures var q := ReelIn(p);
      (p.hasLineCast ==> LineCleared(q) && q == p.(hasLineCast := false, floatWorldX := None, floatWorldY := None,
                                                   floatVelocityX := 0.0, floatVelocityY := 0.0,
                                                   lineAnchorWorldX := None, lineAnchorWorldY := None)) &&
      (!p.hasLineCast ==> q == p) &&
      !q.hasLineCast
  {
  }

  /** `playerJump` for a player: only when not jumping and on the ground. */
  function Jump(p: Player, groundLevel: int): Player
  {
    if !p.isJumping && OnGround(p.y, GroundTop(groundLevel)) then p.(isJumping := true, velocityY := JumpStrength)
    else p
  }

  lemma JumpFacts(p: Player, groundLevel: int)
    ensures var q := Jump(p, groundLevel);
      (q != p <==> !p.isJumping && Abs(p.y - GroundTop(groundLevel)) <= 1.0) &&
      (!p.isJumping && Abs(p.y - GroundTop(groundLevel)) <= 1.0 ==> q.isJumping && q.velocityY == JumpStrength) &&
      q == p.(isJumping := q.isJumping, velocityY := q.velocityY)
  {
  }

  // ---------------------------------------------------------------------------
  // Rod geometry
  // ---------------------------------------------------------------------------

  /** `Math.PI` as a double. */
  const Pi: real := 3.141592653589793

  const ArmRotationWalkMaxAngle: real := 45.0 * (Pi / 180.0)

  /** `Math.round(14 * (PLAYER_SIZE / 36))` and `Math.round(15 * (PLAYER_SIZE / 36))`. */
  const ArmPivotX: real := 50.0
  const ArmPivotY: real := 53.0
  /** `Math.round(136 * (PLAYER_SIZE / 128))` and `Math.round(-38 * (PLAYER_SIZE / 128))`. */
  const RodTipOffsetX: real := 136.0
  const RodTipOffsetY: real := -38.0

  /** The arm swings with the walk cycle; it is level otherwise. */
  function ArmRotationAngle(p: Player, sin: real -> real): real
  {
    if p.isWalking then
      var progress := JsRem(p.animationFrame, AnimationCycleLength) / AnimationCycleLength;
      sin(progress * Pi * 2.0) * ArmRotationWalkMaxAngle
    else 0.0
  }

  lemma ArmRotationBounds(p: Player, sin: real -> real)
    requires p.isWalking ==> -1.0 <= sin(JsRem(p.animationFrame, AnimationCycleLength) / AnimationCycleLength * Pi * 2.0) <= 1.0
    ensures Abs(ArmRotationAngle(p, sin)) <= ArmRotationWalkMaxAngle
    ensures !p.isWalking ==> ArmRotationAngle(p, sin) == 0.0
  {
    if p.isWalking {
      var s := sin(JsRem(p.animationFrame, AnimationCycleLength) / AnimationCycleLength * Pi * 2.0);
      assert ArmRotationAngle(p, sin) == s * ArmRotationWalkMaxAngle;
    }
  }

  /** The rod tip in world coordinates: the arm pivot rotated about the player's
      centre, plus the rod rotated about the pivot, mirrored by `direction`;
      nothing without the rod. */
  function RodTipWorldPosition(p: Player, sin: real -> real, cos: real -> real): (tip: (Option<real>, Option<real>))
    ensures tip.0.Some? <==> HoldsRod(p.customizations)
    ensures tip.1.Some? <==> HoldsRod(p.customizations)
  {
    if !HoldsRod(p.customizations) then (None, None)
    else
      var a := ArmRotationAngle(p, sin);
      var s, c := sin(a), cos(a);
      var centerX := p.x + PlayerSize / 2.0;
      var centerY := p.y + PlayerSize / 2.0;
      var armX := ArmPivotX - PlayerSize / 2.0;
      var armY := ArmPivotY - PlayerSize / 2.0;
      var pivotX := centerX + (armX * c - armY * s) * p.direction as real;
      var pivotY := centerY + (armX * s + armY * c);
      var rodX := RodTipOffsetX * c - RodTipOffsetY * s;
      var rodY := RodTipOffsetX * s + RodTipOffsetY * c;
      (Some(pivotX + rodX * p.direction as real), Some(pivotY + rodY))
  }

  /** With sine and cosine in [-1, 1] and a direction of ±1, the tip is within
      14 + 11 + 136 + 38 = 199 of the player's centre on each axis. */
  lemma RodTipReach(p: Player, sin: real -> real, cos: real -> real)
    requires HoldsRod(p.customizations) && (p.direction == 1 || p.direction == -1)
    requires var a := ArmRotationAngle(p, sin); -1.0 <= sin(a) <= 1.0 && -1.0 <= cos(a) <= 1.0
    ensures var tip := RodTipWorldPosition(p, sin, cos);
      Abs(tip.0.value - (p.x + PlayerSize / 2.0)) <= 199.0 && Abs(tip.1.value - (p.y + PlayerSize / 2.0)) <= 199.0
  {
  }
}
