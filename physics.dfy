// The player's movement step of updatePlayer (game-objects.js): steering and
// friction, gravity, integration, the horizontal clamp, the per-platform
// collision resolution and the camera clamp.

module Physics {
  import opened Entities

  predicate LeftHeld(keys: map<string, bool>) {
    Held(keys, "KeyA") || Held(keys, "ArrowLeft")
  }

  predicate RightHeld(keys: map<string, bool>) {
    Held(keys, "KeyD") || Held(keys, "ArrowRight")
  }

  /** Direction keys set the horizontal speed, left taking precedence; with
      neither held, friction slows it. Nothing else changes. */
  function Steer(p: PlayerState, keys: map<string, bool>): (r: PlayerState)
    ensures r.(velocityX := p.velocityX, direction := p.direction) == p
    ensures LeftHeld(keys) ==> r.velocityX == -MoveSpeed && r.direction == -1
    ensures !LeftHeld(keys) && RightHeld(keys) ==> r.velocityX == MoveSpeed && r.direction == 1
    ensures !LeftHeld(keys) && !RightHeld(keys) ==> r.velocityX == p.velocityX * Friction && r.direction == p.direction
  {
    if LeftHeld(keys) then
      p.(velocityX := -MoveSpeed, direction := -1)
    else if RightHeld(keys) then
      p.(velocityX := MoveSpeed, direction := 1)
    else
      p.(velocityX := p.velocityX * Friction)
  }

  /** The two boundary checks on x: the result lies on the stage, and a
      position already on the stage is left alone. */
  function ClampX(x: real): (r: real)
    ensures 0.0 <= r <= StageWidth - PlayerWidth
    ensures 0.0 <= x <= StageWidth - PlayerWidth ==> r == x
    ensures x < 0.0 ==> r == 0.0
    ensures x > StageWidth - PlayerWidth ==> r == StageWidth - PlayerWidth
  {
    var low := if x < 0.0 then 0.0 else x;
    if low > StageWidth - PlayerWidth then StageWidth - PlayerWidth else low
  }

  /** Gravity, then position += velocity, then the horizontal clamp. */
  function Integrate(p: PlayerState): (r: PlayerState)
    ensures r.velocityY == p.velocityY + Gravity
    ensures r.y == p.y + p.velocityY + Gravity
    ensures r.x == ClampX(p.x + p.velocityX) && 0.0 <= r.x <= StageWidth - PlayerWidth
    ensures r.(x := p.x, y := p.y, velocityY := p.velocityY) == p
  {
    var vy := p.velocityY + Gravity;
    p.(velocityY := vy, x := ClampX(p.x + p.velocityX), y := p.y + vy)
  }

  // The four resolution cases, tested in this order on an overlapping platform.

  predicate LandsOn(p: PlayerState, pl: Platform) {
    Overlap(p.Bounds(), pl.Bounds()) && p.velocityY > 0.0 && p.y < pl.y
  }

  predicate HitsFromBelow(p: PlayerState, pl: Platform) {
    && Overlap(p.Bounds(), pl.Bounds()) && !LandsOn(p, pl)
    && p.velocityY < 0.0 && p.y + PlayerHeight > pl.y + pl.height
  }

  predicate HitsLeftSide(p: PlayerState, pl: Platform) {
    && Overlap(p.Bounds(), pl.Bounds()) && !LandsOn(p, pl) && !HitsFromBelow(p, pl)
    && p.velocityX > 0.0 && p.x < pl.x
  }

  predicate HitsRightSide(p: PlayerState, pl: Platform) {
    && Overlap(p.Bounds(), pl.Bounds()) && !LandsOn(p, pl) && !HitsFromBelow(p, pl) && !HitsLeftSide(p, pl)
    && p.velocityX < 0.0 && p.x + PlayerWidth > pl.x + pl.width
  }

  /**
   * Resolves one platform against the player, inferring the side of approach
   * from the sign of the velocity. Every resolution that changes anything
   * leaves the player's box touching, but no longer overlapping, the platform;
   * only a landing grounds the player.
   */
  function Resolve(p: PlayerState, pl: Platform): (r: PlayerState)
    ensures !Overlap(p.Bounds(), pl.Bounds()) ==> r == p
    ensures r != p ==> !Overlap(r.Bounds(), pl.Bounds())
    ensures LandsOn(p, pl) ==>
              && r.y + PlayerHeight == pl.y && r.velocityY == 0.0 && r.onGround && !r.jumping
              && r.x == p.x && r.velocityX == p.velocityX
    ensures HitsFromBelow(p, pl) ==>
              r == p.(y := pl.y + pl.height, velocityY := 0.0)
    ensures HitsLeftSide(p, pl) ==>
              r == p.(x := pl.x - PlayerWidth, velocityX := 0.0)
    ensures HitsRightSide(p, pl) ==>
              r == p.(x := pl.x + pl.width, velocityX := 0.0)
    ensures r.onGround <==> p.onGround || LandsOn(p, pl)
    ensures r.(x := p.x, y := p.y, velocityX := p.velocityX, velocityY := p.velocityY,
               onGround := p.onGround, jumping := p.jumping) == p
  {
    if LandsOn(p, pl) then
      p.(y := pl.y - PlayerHeight, velocityY := 0.0, onGround := true, jumping := false)
    else if HitsFromBelow(p, pl) then
      p.(y := pl.y + pl.height, velocityY := 0.0)
    else if HitsLeftSide(p, pl) then
      p.(x := pl.x - PlayerWidth, velocityX := 0.0)
    else if HitsRightSide(p, pl) then
      p.(x := pl.x + pl.width, velocityX := 0.0)
    else
      p
  }

  /** The forEach over the platforms, in list order. */
  function ResolveAll(p: PlayerState, ps: seq<Platform>): PlayerState
    decreases |ps|
  {
    if ps == [] then p else Resolve(ResolveAll(p, ps[..|ps| - 1]), ps[|ps| - 1])
  }

  /**
   * Grounding is recomputed every tick: starting from onGround = false, the
   * player ends grounded exactly when some platform, visited in order, was
   * landed on from above.
   */
  lemma {:induction false} GroundedOnlyByLanding(p: PlayerState, ps: seq<Platform>)
    requires !p.onGround
    ensures ResolveAll(p, ps).onGround <==>
              exists k :: 0 <= k < |ps| && LandsOn(ResolveAll(p, ps[..k]), ps[k])
  {
    if ps != [] {
      var n := |ps| - 1;
      var front := ps[..n];
      GroundedOnlyByLanding(p, front);
      forall k | 0 <= k < n
        ensures ps[..k] == front[..k] && ps[k] == front[k]
      {
      }
      if ResolveAll(p, ps).onGround && !LandsOn(ResolveAll(p, front), ps[n]) {
        var k :| 0 <= k < n && LandsOn(ResolveAll(p, front[..k]), front[k]);
        assert LandsOn(ResolveAll(p, ps[..k]), ps[k]);
      }
      if exists k :: 0 <= k < |ps| && LandsOn(ResolveAll(p, ps[..k]), ps[k]) {
        var k :| 0 <= k < |ps| && LandsOn(ResolveAll(p, ps[..k]), ps[k]);
        if k < n {
          assert LandsOn(ResolveAll(p, front[..k]), front[k]);
        } else {
          assert ps[..k] == front;
        }
      }
    }
  }

  /** Resolution moves and stops the player but touches no other field. */
  lemma {:induction false} ResolveAllKeepsStatus(p: PlayerState, ps: seq<Platform>)
    ensures var r := ResolveAll(p, ps);
            r.health == p.health && r.direction == p.direction
            && r.attacking == p.attacking && r.attackCooldown == p.attackCooldown
  {
    if ps != [] {
      ResolveAllKeepsStatus(p, ps[..|ps| - 1]);
    }
  }

  /**
   * A platform whose side resolutions cannot push the player off the stage:
   * its left edge is either at or before the stage's left edge or at least a
   * player width in, and its right edge either reaches the stage's right edge
   * or leaves room for the player beside it.
   */
  predicate Fits(pl: Platform) {
    && (pl.x <= 0.0 || PlayerWidth <= pl.x)
    && (StageWidth <= pl.x + pl.width || pl.x + pl.width <= StageWidth - PlayerWidth)
  }

  /** Resolving against platforms that fit keeps the clamped x on the stage. */
  lemma {:induction false} ResolveAllStaysOnStage(p: PlayerState, ps: seq<Platform>)
    requires 0.0 <= p.x <= StageWidth - PlayerWidth
    requires forall pl :: pl in ps ==> Fits(pl)
    ensures 0.0 <= ResolveAll(p, ps).x <= StageWidth - PlayerWidth
  {
    if ps != [] {
      var front := ps[..|ps| - 1];
      assert forall pl :: pl in front ==> pl in ps;
      ResolveAllStaysOnStage(p, front);
      assert ps[|ps| - 1] in ps;
    }
  }

  /**
   * The camera follows the player, centred, then is clamped; when the canvas
   * is no wider than the stage it stays within the stage.
   */
  function Camera(playerX: real, canvasWidth: real): (r: real)
    ensures canvasWidth <= StageWidth ==> 0.0 <= r <= StageWidth - canvasWidth
    ensures 0.0 <= playerX - canvasWidth / 2.0 <= StageWidth - canvasWidth ==> r == playerX - canvasWidth / 2.0
    ensures canvasWidth <= StageWidth && playerX - canvasWidth / 2.0 < 0.0 ==> r == 0.0
    ensures playerX - canvasWidth / 2.0 > StageWidth - canvasWidth ==> r == StageWidth - canvasWidth
  {
    var c := playerX - canvasWidth / 2.0;
    var low := if c < 0.0 then 0.0 else c;
    if low > StageWidth - canvasWidth then StageWidth - canvasWidth else low
  }
}
