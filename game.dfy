// The platformer as game-core.js and game-objects.js run it: the `player`
// record is an object whose fields are assigned one by one, and the globals
// (object lists, camera, session flags, score, lives, stage) are fields of
// one Game object. Every method is proved to leave the state that the
// matching function of module Simulation computes from the old state.

module Game {
  import opened Entities
  import opened Physics
  import opened Stage
  import opened Combat
  import opened Particles
  import opened Simulation
  import Properties

  /** The module-level `player` record of game-objects.js. */
  class Player {
    var x: real
    var y: real
    var velocityX: real
    var velocityY: real
    var jumping: bool
    var onGround: bool
    var health: int
    var direction: int
    var attacking: bool
    var attackCooldown: int
    const width: real := PlayerWidth
    const height: real := PlayerHeight
    const maxHealth: int := PlayerMaxHealth

    /** The record as first declared. */
    constructor ()
      ensures State() == InitialPlayer
    {
      x := SpawnX;
      y := SpawnY;
      velocityX := 0.0;
      velocityY := 0.0;
      jumping := false;
      onGround := false;
      health := PlayerMaxHealth;
      direction := 1;
      attacking := false;
      attackCooldown := 0;
    }

    function State(): PlayerState
      reads this
    {
      PlayerState(x, y, velocityX, velocityY, jumping, onGround, health, direction, attacking, attackCooldown)
    }
  }

  class Game {
    const canvas: Canvas
    const player: Player
    var platforms: seq<Platform>
    var enemies: seq<Enemy>
    var coins: seq<Coin>
    var particles: seq<Particle>
    var cameraX: real
    var gameRunning: bool
    var gamePaused: bool
    var score: int
    var lives: int
    var currentStage: int

    /** The whole state as one value. */
    function Snapshot(): World
      reads this, player
    {
      World(canvas, player.State(), platforms, enemies, coins, particles, cameraX,
            gameRunning, gamePaused, score, lives, currentStage)
    }

    /** The globals as the scripts declare them, for a canvas of the given size. */
    constructor (canvasWidth: real, canvasHeight: real)
      ensures Snapshot() == Initial(Canvas(canvasWidth, canvasHeight))
      ensures Properties.Inv(Snapshot())
      ensures fresh(player)
    {
      canvas := Canvas(canvasWidth, canvasHeight);
      player := new Player();
      platforms := [];
      enemies := [];
      coins := [];
      particles := [];
      cameraX := 0.0;
      gameRunning := false;
      gamePaused := false;
      score := 0;
      lives := StartLives;
      currentStage := 1;
      new;
      Properties.InitialInv(canvas);
    }

    /** createParticle: one particle is pushed. */
    method CreateParticle(x: real, y: real, color: string, noise: Noise)
      modifies this`particles
      ensures particles == old(particles) + [Spark(x, y, color, noise, |old(particles)|)]
      ensures Snapshot() == Emit(old(Snapshot()), x, y, color, noise)
    {
      var n := |particles|;
      particles := particles + [Particle(x, y, (noise.sparkX(n) - 0.5) * 4.0, (noise.sparkY(n) - 0.5) * 4.0, color, ParticleLife)];
    }

    method TogglePause()
      modifies this
      ensures Snapshot() == Simulation.TogglePause(old(Snapshot()))
    {
      if !gameRunning {
        return;
      }
      gamePaused := !gamePaused;
    }

    method Jump(noise: Noise)
      modifies this, player
      ensures Snapshot() == Simulation.Jump(old(Snapshot()), noise)
    {
      if player.onGround && !player.jumping {
        player.velocityY := -JumpPower;
        player.jumping := true;
        player.onGround := false;
        CreateParticle(player.x + player.width / 2.0, player.y + player.height, JumpColour, noise);
      }
    }

    method ResetPlayer()
      modifies player
      ensures Snapshot() == old(Snapshot()).(player := Simulation.ResetPlayer(old(player.State())))
    {
      player.x := SpawnX;
      player.y := SpawnY;
      player.velocityX := 0.0;
      player.velocityY := 0.0;
      player.health := PlayerMaxHealth;
      player.attacking := false;
      player.attackCooldown := 0;
    }

    /** attack: the attack flag and cooldown, the sweep over the enemies, and
        the swing's spark in front of the player. */
    method Attack(noise: Noise)
      modifies this, player
      ensures Snapshot() == Simulation.Attack(old(Snapshot()), noise)
    {
      ghost var w0 := Snapshot();
      player.attacking := true;
      player.attackCooldown := AttackCooldown;
      ghost var slain := StrikeEnemies(noise);
      ghost var sweep := AttackSweep(w0.enemies, w0.player.x);
      assert sweep == SweepResult(enemies, slain);
      assert Snapshot() == w0.(player := player.State(), enemies := sweep.enemies, score := w0.score + KillReward * |sweep.slain|,
                               particles := w0.particles + KillSparks(sweep.slain, noise, |w0.particles|));
      CreateParticle(player.x + (if player.direction > 0 then player.width else 0.0), player.y + player.height / 2.0, GoldColour, noise);
    }

    /**
     * The forEach of attack, written as the index loop it performs: indices
     * below the length the list had at the start, each read from the live
     * list and skipped once the list has become shorter. A killed enemy is
     * found by indexOf at the index being visited, since no two entries of
     * the list are the same object.
     */
    method StrikeEnemies(noise: Noise) returns (ghost slain: seq<Enemy>)
      modifies this`enemies, this`score, this`particles
      ensures SweepResult(enemies, slain) == AttackSweep(old(enemies), player.x)
      ensures score == old(score) + KillReward * |slain|
      ensures particles == old(particles) + KillSparks(slain, noise, |old(particles)|)
    {
      var n := |enemies|;
      var k := 0;
      slain := [];
      while k < n
        invariant 0 <= k <= n
        invariant Sweep(enemies, player.x, k, n, slain) == AttackSweep(old(enemies), player.x)
        invariant score == old(score) + KillReward * |slain|
        invariant particles == old(particles) + KillSparks(slain, noise, |old(particles)|)
      {
        slain := Strike(k, n, slain, old(particles), noise);
        k := k + 1;
      }
    }

    /** One call of the forEach closure of attack, on the enemy now at index k. */
    method Strike(k: nat, n: nat, ghost slain: seq<Enemy>, ghost base: seq<Particle>, noise: Noise)
      returns (ghost slain': seq<Enemy>)
      requires k < n
      requires particles == base + KillSparks(slain, noise, |base|)
      modifies this`enemies, this`score, this`particles
      ensures Sweep(old(enemies), player.x, k, n, slain) == Sweep(enemies, player.x, k + 1, n, slain')
      ensures score == old(score) + KillReward * (|slain'| - |slain|)
      ensures particles == base + KillSparks(slain', noise, |base|)
    {
      SweepStep(enemies, player.x, k, n, slain);
      slain' := slain;
      if k < |enemies| {
        var enemy := enemies[k];
        var distance := Dist(player.x, enemy.x);
        if distance < AttackRange {
          slain' := Wound(k, n, slain, base, noise);
        }
      }
    }

    /** The blow to the enemy at index k, in reach, and its removal if it dies. */
    method Wound(k: nat, n: nat, ghost slain: seq<Enemy>, ghost base: seq<Particle>, noise: Noise)
      returns (ghost slain': seq<Enemy>)
      requires k < n && k < |enemies| && InReach(player.x, enemies[k])
      requires particles == base + KillSparks(slain, noise, |base|)
      modifies this`enemies, this`score, this`particles
      ensures Sweep(old(enemies), player.x, k, n, slain) == Sweep(enemies, player.x, k + 1, n, slain')
      ensures score == old(score) + KillReward * (|slain'| - |slain|)
      ensures particles == base + KillSparks(slain', noise, |base|)
    {
      SweepStep(enemies, player.x, k, n, slain);
      var enemy := enemies[k];
      enemy := enemy.(health := enemy.health - AttackDamage);
      enemies := enemies[k := enemy];
      slain' := slain;
      if enemy.health <= 0 {
        enemies := enemies[..k] + enemies[k + 1..];
        score := score + KillReward;
        KillStep(base, slain, enemy, noise, particles);
        CreateParticle(enemy.x + enemy.width / 2.0, enemy.y + enemy.height / 2.0, HitColour, noise);
        slain' := slain + [enemy];
      }
    }

    method GameOver()
      modifies this
      ensures Snapshot() == Simulation.GameOver(old(Snapshot()))
    {
      gameRunning := false;
    }

    /** generateStage: the lists are emptied, then filled from the tables. */
    method GenerateStage(noise: Noise)
      modifies this
      ensures Snapshot() == Simulation.GenerateStage(old(Snapshot()), noise)
    {
      platforms := [];
      enemies := [];
      coins := [];
      particles := [];
      BuildPlatforms();
      SpawnEnemies();
      ScatterCoins(noise);
    }

    /** The ground, then the elevated platforms of the layout table. */
    method BuildPlatforms()
      requires platforms == []
      modifies this`platforms
      ensures platforms == StagePlatforms(canvas.height)
    {
      var groundLevel := canvas.height - 100.0;
      platforms := platforms + [Platform(0.0, groundLevel, StageWidth, 100.0, Ground)];
      var k := 0;
      while k < |PlatformLayout|
        invariant 0 <= k <= |PlatformLayout|
        invariant platforms == [GroundPlatform(canvas.height)] + ElevatedPlatforms()[..k]
      {
        var pos := PlatformLayout[k];
        platforms := platforms + [Platform(pos.x, pos.y, pos.width, pos.height, Elevated)];
        assert ElevatedPlatforms()[..k + 1] == ElevatedPlatforms()[..k] + [Raise(pos)];
        k := k + 1;
      }
      assert ElevatedPlatforms()[..k] == ElevatedPlatforms();
    }

    /** One enemy at each spawn position, standing on the ground. */
    method SpawnEnemies()
      requires enemies == []
      modifies this`enemies
      ensures enemies == StageEnemies(canvas.height)
    {
      var groundLevel := canvas.height - 100.0;
      var k := 0;
      while k < |EnemySpawnXs|
        invariant 0 <= k <= |EnemySpawnXs|
        invariant enemies == StageEnemies(canvas.height)[..k]
      {
        enemies := enemies + [Enemy(EnemySpawnXs[k], groundLevel - 60.0, 40.0, 60.0, EnemyKind, 100, 100, -1.0, -1, 0)];
        assert StageEnemies(canvas.height)[..k + 1] == StageEnemies(canvas.height)[..k] + [Spawn(EnemySpawnXs[k], canvas.height)];
        k := k + 1;
      }
      assert StageEnemies(canvas.height)[..k] == StageEnemies(canvas.height);
    }

    /** CoinCount coins at drawn positions, none collected. */
    method ScatterCoins(noise: Noise)
      requires coins == []
      modifies this`coins
      ensures coins == StageCoins(canvas.height, noise)
    {
      var i := 0;
      while i < CoinCount
        invariant 0 <= i <= CoinCount
        invariant coins == StageCoins(canvas.height, noise)[..i]
      {
        var x := noise.coinX(i) * StageWidth;
        var y := noise.coinY(i) * (canvas.height - 200.0) + 100.0;
        coins := coins + [Coin(x, y, CoinSize, CoinSize, false)];
        ghost var all := StageCoins(canvas.height, noise);
        assert all[i] == Drop(i, canvas.height, noise) == Coin(x, y, CoinSize, CoinSize, false);
        assert all[..i + 1] == all[..i] + [all[i]];
        i := i + 1;
      }
      assert StageCoins(canvas.height, noise)[..i] == StageCoins(canvas.height, noise);
    }

    method LoseLife(noise: Noise)
      modifies this, player
      ensures Snapshot() == Simulation.LoseLife(old(Snapshot()), noise)
    {
      lives := lives - 1;
      if lives <= 0 {
        GameOver();
      } else {
        ResetPlayer();
        GenerateStage(noise);
      }
    }

    method TakeDamage(damage: int, noise: Noise)
      modifies this, player
      ensures Snapshot() == Simulation.TakeDamage(old(Snapshot()), damage, noise)
    {
      Hurt(damage, noise);
      if player.health <= 0 {
        LoseLife(noise);
      }
    }

    /** The health loss, clamped at zero, and its particle. */
    method Hurt(damage: int, noise: Noise)
      modifies player`health, this`particles
      ensures var w := old(Snapshot());
              var h := w.player.health - damage;
              Snapshot() == Emit(w.(player := w.player.(health := if h < 0 then 0 else h)),
                                 w.player.x + PlayerWidth / 2.0, w.player.y, HitColour, noise)
    {
      player.health := player.health - damage;
      if player.health < 0 {
        player.health := 0;
      }
      CreateParticle(player.x + player.width / 2.0, player.y, HitColour, noise);
    }

    /** updatePlayer. */
    method UpdatePlayer(keys: map<string, bool>, noise: Noise)
      modifies this, player
      ensures Snapshot() == Simulation.UpdatePlayer(old(Snapshot()), keys, noise)
    {
      ghost var w0 := Snapshot();
      MovePlayer(keys);
      player.onGround := false;
      CollidePlatforms();
      assert Snapshot() == w0.(player := Moved(w0, keys));
      AfterMove(keys, noise);
    }

    /** The part of updatePlayer after the platform pass. */
    method AfterMove(keys: map<string, bool>, noise: Noise)
      modifies this, player
      ensures Snapshot() == Simulation.AfterMove(old(Snapshot()), keys, noise)
    {
      CheckFall(noise);
      CheckAttack(keys, noise);
      Settle();
    }

    /** The fall check of updatePlayer. */
    method CheckFall(noise: Noise)
      modifies this, player
      ensures Snapshot() == if FellOff(old(Snapshot()), old(Snapshot()).player)
                            then Simulation.LoseLife(old(Snapshot()), noise) else old(Snapshot())
    {
      if player.y > canvas.height + 100.0 {
        LoseLife(noise);
      }
    }

    /** The attack key check of updatePlayer. */
    method CheckAttack(keys: map<string, bool>, noise: Noise)
      modifies this, player
      ensures Snapshot() == if AttackFires(old(Snapshot()), keys)
                            then Simulation.Attack(old(Snapshot()), noise) else old(Snapshot())
    {
      if Held(keys, "KeyF") && !player.attacking && player.attackCooldown <= 0 {
        Attack(noise);
      }
    }

    /** The cooldown tick and camera update that end updatePlayer. */
    method Settle()
      modifies player`attackCooldown, this`cameraX
      ensures var w := old(Snapshot()).(player := old(Snapshot()).player.(attackCooldown := TickCooldown(old(player.attackCooldown))));
              Snapshot() == w.(cameraX := Camera(w.player.x, w.canvas.width))
    {
      if player.attackCooldown > 0 {
        player.attackCooldown := player.attackCooldown - 1;
      }
      FollowCamera();
    }

    /** The movement part of updatePlayer: steering or friction, gravity,
        integration and the two boundary checks. */
    method MovePlayer(keys: map<string, bool>)
      modifies player
      ensures player.State() == Integrate(Steer(old(player.State()), keys))
    {
      if Held(keys, "KeyA") || Held(keys, "ArrowLeft") {
        player.velocityX := -MoveSpeed;
        player.direction := -1;
      } else if Held(keys, "KeyD") || Held(keys, "ArrowRight") {
        player.velocityX := MoveSpeed;
        player.direction := 1;
      } else {
        player.velocityX := player.velocityX * Friction;
      }
      player.velocityY := player.velocityY + Gravity;
      player.x := player.x + player.velocityX;
      player.y := player.y + player.velocityY;
      if player.x < 0.0 {
        player.x := 0.0;
      }
      if player.x > StageWidth - player.width {
        player.x := StageWidth - player.width;
      }
    }

    /** The forEach over the platforms. */
    method CollidePlatforms()
      modifies player
      ensures player.State() == ResolveAll(old(player.State()), platforms)
    {
      ghost var start := player.State();
      var i := 0;
      while i < |platforms|
        invariant 0 <= i <= |platforms|
        invariant player.State() == ResolveAll(start, platforms[..i])
        modifies player
      {
        CollidePlatform(platforms[i]);
        assert platforms[..i + 1][..i] == platforms[..i];
        i := i + 1;
      }
      assert platforms[..i] == platforms;
    }

    /** One platform of that forEach: the overlap test, then the four cases. */
    method CollidePlatform(platform: Platform)
      modifies player
      ensures player.State() == Resolve(old(player.State()), platform)
    {
      if player.x < platform.x + platform.width && player.x + player.width > platform.x
         && player.y < platform.y + platform.height && player.y + player.height > platform.y
      {
        if player.velocityY > 0.0 && player.y < platform.y {
          player.y := platform.y - player.height;
          player.velocityY := 0.0;
          player.onGround := true;
          player.jumping := false;
        } else if player.velocityY < 0.0 && player.y + player.height > platform.y + platform.height {
          player.y := platform.y + platform.height;
          player.velocityY := 0.0;
        } else if player.velocityX > 0.0 && player.x < platform.x {
          player.x := platform.x - player.width;
          player.velocityX := 0.0;
        } else if player.velocityX < 0.0 && player.x + player.width > platform.x + platform.width {
          player.x := platform.x + platform.width;
          player.velocityX := 0.0;
        }
      }
    }

    /** The camera follows the player and is clamped to the stage. */
    method FollowCamera()
      modifies this`cameraX
      ensures cameraX == Camera(player.x, canvas.width)
    {
      cameraX := player.x - canvas.width / 2.0;
      if cameraX < 0.0 {
        cameraX := 0.0;
      }
      if cameraX > StageWidth - canvas.width {
        cameraX := StageWidth - canvas.width;
      }
    }

    /**
     * updateEnemies. `list` is the array the forEach was started on. When a
     * contact hit costs a life while lives remain, generateStage replaces the
     * enemy list, and the writes of the rest of the loop reach only the
     * discarded array (`detached`).
     */
    method UpdateEnemies(noise: Noise)
      modifies this, player
      ensures Snapshot() == Simulation.UpdateEnemies(old(Snapshot()), noise)
    {
      ghost var w0 := Snapshot();
      var list := enemies;
      var detached := false;
      var i := 0;
      while i < |list|
        invariant 0 <= i <= |list|
        invariant !detached ==> |enemies| == |list|
        invariant EnemyPass(Snapshot(), list, i, detached, noise) == EnemyPass(w0, list, 0, false, noise)
      {
        detached := EnemyTurn(list, i, detached, noise);
        i := i + 1;
      }
      assert EnemyPass(Snapshot(), list, i, detached, noise) == Snapshot();
    }

    /** One turn of that forEach: the closure's call on the enemy at index i
        of the array the loop was started on. */
    method EnemyTurn(list: seq<Enemy>, i: nat, detached: bool, noise: Noise) returns (gone: bool)
      requires i < |list| && (!detached ==> |enemies| == |list|)
      modifies this, player
      ensures !gone ==> |enemies| == |list|
      ensures EnemyPass(old(Snapshot()), list, i, detached, noise) == EnemyPass(Snapshot(), list, i + 1, gone, noise)
    {
      ghost var step := EnemyStep(Snapshot(), list[i], i, detached, noise);
      gone := UpdateEnemy(list[i], i, detached, noise);
      assert Snapshot() == step.0 && gone == step.1;
    }

    /** The body of that forEach for one enemy, which the closure updates in
        place in the list it belongs to. */
    method UpdateEnemy(e: Enemy, i: nat, detached: bool, noise: Noise) returns (gone: bool)
      requires !detached ==> i < |enemies|
      modifies this, player
      ensures Snapshot() == EnemyStep(old(Snapshot()), e, i, detached, noise).0
      ensures gone == EnemyStep(old(Snapshot()), e, i, detached, noise).1
    {
      var enemy := WalkEnemy(e);
      PlaceEnemy(i, enemy, detached);
      var lostLife := HitPlayer(enemy, noise);
      gone := detached || lostLife;
      if enemy.attackCooldown > 0 {
        enemy := enemy.(attackCooldown := enemy.attackCooldown - 1);
      }
      PlaceEnemy(i, enemy, gone);
    }

    /** The enemy's step and the turn at the stage edges. */
    static method WalkEnemy(e: Enemy) returns (enemy: Enemy)
      ensures enemy == MoveEnemy(e)
    {
      enemy := e;
      enemy := enemy.(x := enemy.x + enemy.velocityX);
      if enemy.x <= 0.0 || enemy.x >= StageWidth - enemy.width {
        enemy := enemy.(velocityX := -enemy.velocityX, direction := -enemy.direction);
      }
    }

    /** The closure's in-place update of the enemy object, which shows in the
        enemy list only while that list is still the current one. */
    method PlaceEnemy(i: nat, enemy: Enemy, detached: bool)
      requires !detached ==> i < |enemies|
      modifies this`enemies
      ensures Snapshot() == Place(old(Snapshot()), i, enemy, detached)
    {
      if !detached {
        enemies := enemies[i := enemy];
      }
    }

    /** The contact check against one enemy; `lostLife` tells whether the hit
        cost a life with lives remaining, which regenerates the stage. */
    method HitPlayer(enemy: Enemy, noise: Noise) returns (lostLife: bool)
      modifies this, player
      ensures Snapshot() == Contact(old(Snapshot()), enemy, noise)
      ensures lostLife == LifeLostTo(old(Snapshot()), Snapshot())
    {
      lostLife := false;
      if player.x < enemy.x + enemy.width && player.x + player.width > enemy.x
         && player.y < enemy.y + enemy.height && player.y + player.height > enemy.y
      {
        if !player.attacking {
          var livesBefore := lives;
          TakeDamage(ContactDamage, noise);
          lostLife := lives < livesBefore && lives > 0;
        }
      }
    }

    /** updateCoins. */
    method UpdateCoins(noise: Noise)
      modifies this
      ensures Snapshot() == Simulation.UpdateCoins(old(Snapshot()), noise)
    {
      ghost var w0 := Snapshot();
      var i := 0;
      while i < |coins|
        invariant 0 <= i <= |coins| == |w0.coins|
        invariant CoinPass(Snapshot(), i, noise) == CoinPass(w0, 0, noise)
        modifies this`coins, this`score, this`particles
      {
        UpdateCoin(i, noise);
        i := i + 1;
      }
    }

    /** The body of the forEach of updateCoins for coin i. */
    method UpdateCoin(i: nat, noise: Noise)
      requires i < |coins|
      modifies this`coins, this`score, this`particles
      ensures Snapshot() == CoinStep(old(Snapshot()), i, noise)
    {
      var coin := coins[i];
      if !coin.collected {
        if player.x < coin.x + coin.width && player.x + player.width > coin.x
           && player.y < coin.y + coin.height && player.y + player.height > coin.y
        {
          coins := coins[i := coin.(collected := true)];
          score := score + CoinReward;
          CreateParticle(coin.x + coin.width / 2.0, coin.y + coin.height / 2.0, GoldColour, noise);
        }
      }
    }

    /** updateParticles: a reverse index loop that ages each particle and
        splices out the ones whose life has run out. */
    method UpdateParticles()
      modifies this
      ensures Snapshot() == Simulation.UpdateParticles(old(Snapshot()))
    {
      ghost var ps := particles;
      var i := |particles| - 1;
      while i >= 0
        invariant -1 <= i < |ps|
        invariant particles == ps[..i + 1] + Survivors(ps[i + 1..])
        modifies this`particles
      {
        ReverseStep(ps, i, particles);
        var particle := particles[i];
        particle := particle.(x := particle.x + particle.velocityX, y := particle.y + particle.velocityY, life := particle.life - 1);
        particles := particles[i := particle];
        if particle.life <= 0 {
          particles := particles[..i] + particles[i + 1..];
        }
        i := i - 1;
      }
      assert ps[0..] == ps;
    }

    /** One gameLoop call; the next frame's call is left to the caller. */
    method GameLoop(keys: map<string, bool>, noise: Noise)
      modifies this, player
      ensures Snapshot() == Tick(old(Snapshot()), keys, noise)
      ensures Properties.Inv(old(Snapshot())) ==> Properties.Inv(Snapshot())
    {
      ghost var w0 := Snapshot();
      if !gameRunning {
        return;
      }
      if !gamePaused {
        UpdatePlayer(keys, noise);
        UpdateEnemies(noise);
        UpdateCoins(noise);
        UpdateParticles();
      }
      if Properties.Inv(w0) {
        Properties.TickInv(w0, keys, noise);
      }
    }

    /** startGame: the session is reset, the stage built, and gameLoop runs once. */
    method StartGame(keys: map<string, bool>, noise: Noise)
      modifies this, player
      ensures Snapshot() == Simulation.StartGame(old(Snapshot()), keys, noise)
      ensures Properties.Inv(Snapshot())
    {
      ghost var w0 := Snapshot();
      gameRunning := true;
      gamePaused := false;
      score := 0;
      lives := StartLives;
      currentStage := 1;
      ResetPlayer();
      cameraX := 0.0;
      ghost var w1 := Snapshot();
      assert w1 == w0.(running := true, paused := false, score := 0, lives := StartLives, stage := 1,
                       player := Simulation.ResetPlayer(w0.player), cameraX := 0.0);
      GenerateStage(noise);
      assert Snapshot() == Started(w0, noise);
      GameLoop(keys, noise);
      Properties.StartGameInv(w0, keys, noise);
    }

    /** restartGame is startGame. */
    method RestartGame(keys: map<string, bool>, noise: Noise)
      modifies this, player
      ensures Snapshot() == Simulation.StartGame(old(Snapshot()), keys, noise)
    {
      StartGame(keys, noise);
    }
  }
}
