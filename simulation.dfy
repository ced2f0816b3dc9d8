// The game state of game-core.js and game-objects.js as one value, and each
// operation on it as a function from the old state to the new one. The class
// in game.dfy performs the same updates in place and is proved to agree.

module Simulation {
  import opened Entities
  import opened Physics
  import opened Stage
  import opened Combat
  import opened Particles

  datatype Canvas = Canvas(width: real, height: real)

  /** The module-level state: the player record, the object lists, the camera
      and the session globals. */
  datatype World = World(
    canvas: Canvas,
    player: PlayerState,
    platforms: seq<Platform>,
    enemies: seq<Enemy>,
    coins: seq<Coin>,
    particles: seq<Particle>,
    cameraX: real,
    running: bool,
    paused: bool,
    score: int,
    lives: int,
    stage: int)

  /** The state when the scripts have loaded and no game has started. */
  function Initial(canvas: Canvas): World {
    World(canvas, InitialPlayer, [], [], [], [], 0.0, false, false, 0, StartLives, 1)
  }

  // ---------------------------------------------------------------------
  // game-core.js

  /** createParticle: appends one particle and changes nothing else. */
  function Emit(w: World, x: real, y: real, color: string, noise: Noise): (r: World)
    ensures |r.particles| == |w.particles| + 1 && r.particles[..|w.particles|] == w.particles
    ensures var q := r.particles[|w.particles|]; q.x == x && q.y == y && q.color == color && q.life == ParticleLife
    ensures r.(particles := w.particles) == w
  {
    w.(particles := w.particles + [Spark(x, y, color, noise, |w.particles|)])
  }

  /** resetPlayer: back to the spawn point, at rest, with full health and no
      attack in progress; jumping, onGround and direction are kept. */
  function ResetPlayer(p: PlayerState): (r: PlayerState)
    ensures r.x == SpawnX && r.y == SpawnY && r.velocityX == 0.0 && r.velocityY == 0.0
    ensures r.health == PlayerMaxHealth && !r.attacking && r.attackCooldown == 0
    ensures r.jumping == p.jumping && r.onGround == p.onGround && r.direction == p.direction
  {
    p.(x := SpawnX, y := SpawnY, velocityX := 0.0, velocityY := 0.0,
       health := PlayerMaxHealth, attacking := false, attackCooldown := 0)
  }

  predicate CanJump(p: PlayerState) {
    p.onGround && !p.jumping
  }

  /** jump: only a grounded player that is not already jumping takes off. */
  function Jump(w: World, noise: Noise): (r: World)
    ensures CanJump(w.player) ==>
              && r.player == w.player.(velocityY := -JumpPower, jumping := true, onGround := false)
              && r.(player := w.player) == Emit(w, w.player.x + PlayerWidth / 2.0, w.player.y + PlayerHeight, JumpColour, noise)
    ensures !CanJump(w.player) ==> r == w
  {
    if CanJump(w.player) then
      var p := w.player.(velocityY := -JumpPower, jumping := true, onGround := false);
      Emit(w.(player := p), p.x + PlayerWidth / 2.0, p.y + PlayerHeight, JumpColour, noise)
    else
      w
  }

  /** The red particles of the kills, created in order of death after `base`
      particles already in the list. */
  function KillSparks(slain: seq<Enemy>, noise: Noise, base: nat): (ks: seq<Particle>)
    ensures |ks| == |slain|
  {
    seq(|slain|, i requires 0 <= i < |slain| =>
      Spark(slain[i].x + slain[i].width / 2.0, slain[i].y + slain[i].height / 2.0, HitColour, noise, base + i))
  }

  /** Every kill spark is red, has a full life and starts at the centre of
      the enemy it marks. */
  lemma KillSparksRed(slain: seq<Enemy>, noise: Noise, base: nat)
    ensures var ks := KillSparks(slain, noise, base);
            forall i :: 0 <= i < |ks| ==>
              ks[i].color == HitColour && ks[i].life == ParticleLife
              && ks[i].x == slain[i].x + slain[i].width / 2.0 && ks[i].y == slain[i].y + slain[i].height / 2.0
  {
  }

  /** One more kill appends one spark, at the index the particle list has
      reached. */
  lemma KillStep(base: seq<Particle>, slain: seq<Enemy>, e: Enemy, noise: Noise, cur: seq<Particle>)
    requires cur == base + KillSparks(slain, noise, |base|)
    ensures cur + [Spark(e.x + e.width / 2.0, e.y + e.height / 2.0, HitColour, noise, |cur|)]
         == base + KillSparks(slain + [e], noise, |base|)
  {
    var a := KillSparks(slain + [e], noise, |base|);
    var b := KillSparks(slain, noise, |base|) + [Spark(e.x + e.width / 2.0, e.y + e.height / 2.0, HitColour, noise, |cur|)];
    forall j | 0 <= j < |a|
      ensures a[j] == b[j]
    {
      if j < |slain| {
        assert (slain + [e])[j] == slain[j];
      }
    }
    assert a == b;
  }

  /** attack: marks the player attacking, starts the cooldown, sweeps the
      enemies, pays 200 per kill and sparks each kill and the swing. */
  function Attack(w: World, noise: Noise): (r: World)
    ensures r.player == w.player.(attacking := true, attackCooldown := AttackCooldown)
    ensures r.enemies == AttackSweep(w.enemies, w.player.x).enemies
    ensures r.score == w.score + KillReward * (|w.enemies| - |r.enemies|)
    ensures |r.particles| == |w.particles| + (|w.enemies| - |r.enemies|) + 1
    ensures var q := r.particles[|r.particles| - 1];
            && r.particles == w.particles + KillSparks(AttackSweep(w.enemies, w.player.x).slain, noise, |w.particles|) + [q]
            && q.color == GoldColour && q.life == ParticleLife && q.y == w.player.y + PlayerHeight / 2.0
            && q.x == w.player.x + (if w.player.direction > 0 then PlayerWidth else 0.0)
    ensures r.(player := w.player, enemies := w.enemies, score := w.score, particles := w.particles) == w
  {
    var p := w.player.(attacking := true, attackCooldown := AttackCooldown);
    var sweep := AttackSweep(w.enemies, p.x);
    var w1 := w.(player := p, enemies := sweep.enemies, score := w.score + KillReward * |sweep.slain|,
                 particles := w.particles + KillSparks(sweep.slain, noise, |w.particles|));
    Emit(w1, p.x + (if p.direction > 0 then PlayerWidth else 0.0), p.y + PlayerHeight / 2.0, GoldColour, noise)
  }

  /** generateStage: every list is emptied and the fixed stage built anew. */
  function GenerateStage(w: World, noise: Noise): (r: World)
    ensures r.platforms == StagePlatforms(w.canvas.height)
    ensures r.enemies == StageEnemies(w.canvas.height)
    ensures r.coins == StageCoins(w.canvas.height, noise)
    ensures r.particles == []
    ensures r.(platforms := w.platforms, enemies := w.enemies, coins := w.coins, particles := w.particles) == w
  {
    w.(platforms := StagePlatforms(w.canvas.height), enemies := StageEnemies(w.canvas.height),
       coins := StageCoins(w.canvas.height, noise), particles := [])
  }

  /** gameOver, its state part: the loop stops. */
  function GameOver(w: World): (r: World)
    ensures !r.running && r.(running := w.running) == w
  {
    w.(running := false)
  }

  /** loseLife: one life fewer; with none left the game is over, otherwise the
      player respawns on a freshly generated stage. */
  function LoseLife(w: World, noise: Noise): (r: World)
    ensures r.lives == w.lives - 1
    ensures r.lives <= 0 ==> r == w.(lives := w.lives - 1, running := false)
    ensures r.lives > 0 ==>
              && r.player == ResetPlayer(w.player) && r.running == w.running
              && r.platforms == StagePlatforms(w.canvas.height) && r.enemies == StageEnemies(w.canvas.height)
              && r.coins == StageCoins(w.canvas.height, noise) && r.particles == []
              && r.score == w.score && r.cameraX == w.cameraX && r.paused == w.paused && r.stage == w.stage
  {
    var w1 := w.(lives := w.lives - 1);
    if w1.lives <= 0 then GameOver(w1)
    else GenerateStage(w1.(player := ResetPlayer(w1.player)), noise)
  }

  /** Whether a hit of `damage` empties the player's health. */
  predicate CostsLife(w: World, damage: int) {
    w.player.health - damage <= 0
  }

  /** takeDamage: health drops by the damage, clamped at 0; at 0 a life is lost. */
  function TakeDamage(w: World, damage: int, noise: Noise): (r: World)
    ensures CostsLife(w, damage) ==> r.lives == w.lives - 1
    ensures !CostsLife(w, damage) ==>
              && r.lives == w.lives && r.player == w.player.(health := w.player.health - damage)
              && r.(particles := w.particles, player := w.player) == w
    ensures !CostsLife(w, damage) || w.lives - 1 <= 0 ==>
              |r.particles| == |w.particles| + 1 && r.particles[..|w.particles|] == w.particles
              && r.particles[|w.particles|].color == HitColour
    ensures CostsLife(w, damage) && w.lives - 1 <= 0 ==>
              && r.player == w.player.(health := 0) && !r.running && r.lives == w.lives - 1
              && r.(player := w.player, lives := w.lives, running := w.running, particles := w.particles) == w
    ensures CostsLife(w, damage) && w.lives - 1 > 0 ==>
              && r.player == ResetPlayer(w.player) && r.lives == w.lives - 1
              && r.platforms == StagePlatforms(w.canvas.height) && r.enemies == StageEnemies(w.canvas.height)
              && r.coins == StageCoins(w.canvas.height, noise) && r.particles == []
              && r.score == w.score && r.cameraX == w.cameraX && r.running == w.running
              && r.paused == w.paused && r.stage == w.stage
    ensures (r.lives < w.lives && r.lives > 0) || r.enemies == w.enemies
  {
    var h := w.player.health - damage;
    var w1 := w.(player := w.player.(health := if h < 0 then 0 else h));
    var w2 := Emit(w1, w.player.x + PlayerWidth / 2.0, w.player.y, HitColour, noise);
    if w2.player.health <= 0 then LoseLife(w2, noise) else w2
  }

  /** togglePause: ignored unless a game is running. */
  function TogglePause(w: World): (r: World)
    ensures !w.running ==> r == w
    ensures w.running ==> r.paused == !w.paused && r.(paused := w.paused) == w
  {
    if !w.running then w else w.(paused := !w.paused)
  }

  /** The state part of startGame, before its first gameLoop call. */
  function Started(w: World, noise: Noise): (r: World)
    ensures r.running && !r.paused && r.score == 0 && r.lives == StartLives && r.stage == 1
    ensures r.cameraX == 0.0 && r.player == ResetPlayer(w.player)
    ensures r.platforms == StagePlatforms(w.canvas.height) && r.enemies == StageEnemies(w.canvas.height)
    ensures r.coins == StageCoins(w.canvas.height, noise) && r.particles == []
  {
    var w1 := w.(running := true, paused := false, score := 0, lives := StartLives, stage := 1);
    GenerateStage(w1.(player := ResetPlayer(w1.player), cameraX := 0.0), noise)
  }

  // ---------------------------------------------------------------------
  // game-objects.js

  /** Whether the player, after moving and resolving, has fallen below the canvas. */
  predicate FellOff(w: World, p: PlayerState) {
    p.y > w.canvas.height + 100.0
  }

  predicate AttackFires(w: World, keys: map<string, bool>) {
    Held(keys, "KeyF") && !w.player.attacking && w.player.attackCooldown <= 0
  }

  /** The player after steering, gravity, integration, the clamp and the
      platform pass, with onGround cleared before the pass. */
  function Moved(w: World, keys: map<string, bool>): PlayerState {
    ResolveAll(Integrate(Steer(w.player, keys)).(onGround := false), w.platforms)
  }

  /** The rest of updatePlayer once the player has moved: the fall check,
      the attack key, the cooldown tick and the camera. */
  function AfterMove(w1: World, keys: map<string, bool>, noise: Noise): World {
    var w2 := if FellOff(w1, w1.player) then LoseLife(w1, noise) else w1;
    var w3 := if AttackFires(w2, keys) then Attack(w2, noise) else w2;
    var w4 := w3.(player := w3.player.(attackCooldown := TickCooldown(w3.player.attackCooldown)));
    w4.(cameraX := Camera(w4.player.x, w4.canvas.width))
  }

  /** updatePlayer. */
  function UpdatePlayer(w: World, keys: map<string, bool>, noise: Noise): World {
    AfterMove(w.(player := Moved(w, keys)), keys, noise)
  }

  /** An enemy walks by its velocity and turns round at or beyond a stage edge. */
  function MoveEnemy(e: Enemy): (r: Enemy)
    ensures r.x == e.x + e.velocityX
    ensures r.x <= 0.0 || r.x >= StageWidth - e.width ==>
              r.velocityX == -e.velocityX && r.direction == -e.direction
    ensures 0.0 < r.x < StageWidth - e.width ==>
              r.velocityX == e.velocityX && r.direction == e.direction
    ensures r.(x := e.x, velocityX := e.velocityX, direction := e.direction) == e
  {
    var moved := e.(x := e.x + e.velocityX);
    if moved.x <= 0.0 || moved.x >= StageWidth - moved.width then
      moved.(velocityX := -moved.velocityX, direction := -moved.direction)
    else
      moved
  }

  function CoolDown(e: Enemy): Enemy {
    e.(attackCooldown := TickCooldown(e.attackCooldown))
  }

  /** Contact damage applies to a player who overlaps the enemy and is not attacking. */
  predicate Touches(p: PlayerState, e: Enemy) {
    Overlap(p.Bounds(), e.Bounds()) && !p.attacking
  }

  /**
   * The body of the forEach of updateEnemies for the enemy `e` at index i:
   * the enemy moves (written into the list), may hit the player, then counts
   * its cooldown down (written again). Once a contact hit has cost a life
   * while lives remain, generateStage has replaced the enemy list
   * (`detached`): the writes no longer reach the state. The second component
   * says whether the list is detached afterwards.
   */
  function EnemyStep(w: World, e: Enemy, i: nat, detached: bool, noise: Noise): (r: (World, bool))
    requires !detached ==> i < |w.enemies|
    ensures detached ==> r.1
    ensures !r.1 ==> |r.0.enemies| == |w.enemies|
    ensures !r.1 ==> r.0.enemies == w.enemies[i := CoolDown(MoveEnemy(e))]
    ensures r.1 && !detached ==> r.0.enemies == StageEnemies(w.canvas.height)
    ensures Touches(w.player, MoveEnemy(e)) && !CostsLife(w, ContactDamage) ==>
              r.0.player == w.player.(health := w.player.health - ContactDamage) && r.0.lives == w.lives
    ensures Touches(w.player, MoveEnemy(e)) && CostsLife(w, ContactDamage) ==> r.0.lives == w.lives - 1
    ensures !Touches(w.player, MoveEnemy(e)) ==>
              r.1 == detached && r.0.(enemies := w.enemies) == w
  {
    var moved := MoveEnemy(e);
    var w1 := Place(w, i, moved, detached);
    var w2 := Contact(w1, moved, noise);
    var gone := detached || LifeLostTo(w1, w2);
    (Place(w2, i, CoolDown(moved), gone), gone)
  }

  /** The write of enemy `e` into slot i of the list, which reaches the state
      only while the list has not been replaced. */
  function Place(w: World, i: nat, e: Enemy, detached: bool): (r: World)
    requires !detached ==> i < |w.enemies|
    ensures |r.enemies| == |w.enemies|
    ensures detached ==> r == w
    ensures !detached ==> r.enemies[i] == e && r.(enemies := w.enemies) == w
  {
    if detached then w else w.(enemies := w.enemies[i := e])
  }

  /** The contact check of updateEnemies against the moved enemy. */
  function Contact(w: World, moved: Enemy, noise: Noise): World {
    if Touches(w.player, moved) then TakeDamage(w, ContactDamage, noise) else w
  }

  /** Whether a step cost a life with lives remaining, which regenerates the stage. */
  predicate LifeLostTo(before: World, after: World) {
    after.lives < before.lives && after.lives > 0
  }

  /** The forEach of updateEnemies from index i over `list`, the array it was
      started on; the loop keeps walking that array even once it is detached. */
  function EnemyPass(w: World, list: seq<Enemy>, i: nat, detached: bool, noise: Noise): World
    requires !detached ==> |w.enemies| == |list|
    decreases |list| - i
  {
    if i >= |list| then w
    else
      var r := EnemyStep(w, list[i], i, detached, noise);
      EnemyPass(r.0, list, i + 1, r.1, noise)
  }

  /** updateEnemies. */
  function UpdateEnemies(w: World, noise: Noise): World {
    EnemyPass(w, w.enemies, 0, false, noise)
  }

  /** The body of the forEach of updateCoins for coin i: an uncollected coin
      the player overlaps is collected, pays 100 and sparks. */
  function CoinStep(w: World, i: nat, noise: Noise): (r: World)
    requires i < |w.coins|
    ensures |r.coins| == |w.coins|
    ensures forall j :: 0 <= j < |w.coins| && j != i ==> r.coins[j] == w.coins[j]
    ensures !w.coins[i].collected && Overlap(w.player.Bounds(), w.coins[i].Bounds()) ==>
              && r.coins == w.coins[i := w.coins[i].(collected := true)]
              && r.score == w.score + CoinReward
              && |r.particles| == |w.particles| + 1 && r.particles[..|w.particles|] == w.particles
              && r.particles[|w.particles|].color == GoldColour
    ensures w.coins[i].collected || !Overlap(w.player.Bounds(), w.coins[i].Bounds()) ==> r == w
    ensures r.(coins := w.coins, score := w.score, particles := w.particles) == w
  {
    var c := w.coins[i];
    if !c.collected && Overlap(w.player.Bounds(), c.Bounds()) then
      var w1 := w.(coins := w.coins[i := c.(collected := true)], score := w.score + CoinReward);
      Emit(w1, c.x + c.width / 2.0, c.y + c.height / 2.0, GoldColour, noise)
    else
      w
  }

  /** The forEach of updateCoins from index i. */
  function CoinPass(w: World, i: nat, noise: Noise): (r: World)
    ensures |r.coins| == |w.coins|
    decreases |w.coins| - i
  {
    if i >= |w.coins| then w else CoinPass(CoinStep(w, i, noise), i + 1, noise)
  }

  /** updateCoins. */
  function UpdateCoins(w: World, noise: Noise): World {
    CoinPass(w, 0, noise)
  }

  /** updateParticles. */
  function UpdateParticles(w: World): (r: World)
    ensures r.(particles := w.particles) == w
  {
    w.(particles := Survivors(w.particles))
  }

  /** One gameLoop call: nothing when the game is not running or is paused,
      otherwise the four updates in their fixed order. */
  function Tick(w: World, keys: map<string, bool>, noise: Noise): (r: World)
    ensures !w.running || w.paused ==> r == w
  {
    if !w.running || w.paused then w
    else UpdateParticles(UpdateCoins(UpdateEnemies(UpdatePlayer(w, keys, noise), noise), noise))
  }

  /** startGame: the state part, then its immediate first gameLoop call. */
  function StartGame(w: World, keys: map<string, bool>, noise: Noise): World {
    Tick(Started(w, noise), keys, noise)
  }
}
