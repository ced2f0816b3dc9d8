// What the simulation keeps true from tick to tick, and the rules of
// game-core.js and game-objects.js that relate several steps.

module Properties {
  import opened Entities
  import opened Physics
  import opened Stage
  import opened Combat
  import opened Particles
  import opened Simulation

  /**
   * The state invariant: health within [0, 300], the cooldown within
   * [0, 30], the player on the stage, only platforms that keep the player on
   * the stage, only living enemies, a non-negative score, and the camera
   * within the stage whenever the canvas fits in it.
   */
  predicate Inv(w: World) {
    && 0 <= w.player.health <= PlayerMaxHealth
    && 0 <= w.player.attackCooldown <= AttackCooldown
    && 0.0 <= w.player.x <= StageWidth - PlayerWidth
    && (forall pl :: pl in w.platforms ==> Fits(pl))
    && (forall e :: e in w.enemies ==> Alive(e))
    && w.score >= 0
    && (w.canvas.width <= StageWidth ==> 0.0 <= w.cameraX <= StageWidth - w.canvas.width)
  }

  lemma InitialInv(canvas: Canvas)
    ensures Inv(Initial(canvas))
  {
  }

  lemma {:induction false} GenerateStageInv(w: World, noise: Noise)
    requires Inv(w)
    ensures Inv(GenerateStage(w, noise))
  {
    StagePlatformsFit(w.canvas.height);
  }

  lemma {:induction false} LoseLifeInv(w: World, noise: Noise)
    requires Inv(w)
    ensures Inv(LoseLife(w, noise))
  {
    var w1 := w.(lives := w.lives - 1);
    if w1.lives > 0 {
      GenerateStageInv(w1.(player := ResetPlayer(w1.player)), noise);
    }
  }

  /** takeDamage keeps health within [0, 300] for any non-negative damage. */
  lemma {:induction false} TakeDamageInv(w: World, damage: int, noise: Noise)
    requires Inv(w) && damage >= 0
    ensures Inv(TakeDamage(w, damage, noise))
    ensures 0 <= TakeDamage(w, damage, noise).player.health <= PlayerMaxHealth
  {
    var h := w.player.health - damage;
    var w1 := w.(player := w.player.(health := if h < 0 then 0 else h));
    var w2 := Emit(w1, w.player.x + PlayerWidth / 2.0, w.player.y, HitColour, noise);
    assert TakeDamage(w, damage, noise) == if w2.player.health <= 0 then LoseLife(w2, noise) else w2;
    assert Inv(w1);
    assert w2.player == w1.player && w2.platforms == w1.platforms && w2.enemies == w1.enemies;
    assert w2.score == w1.score && w2.cameraX == w1.cameraX && w2.canvas == w1.canvas;
    if w2.player.health <= 0 {
      LoseLifeInv(w2, noise);
    }
  }

  lemma {:induction false} AttackInv(w: World, noise: Noise)
    requires Inv(w)
    ensures Inv(Attack(w, noise))
  {
    AttackSweepFacts(w.enemies, w.player.x);
  }

  /** The player after the movement step and the platform pass is still on the
      stage and has the same health, cooldown and attack flag. */
  lemma {:induction false} MovedFacts(w: World, keys: map<string, bool>)
    requires Inv(w)
    ensures var p := Moved(w, keys);
            && 0.0 <= p.x <= StageWidth - PlayerWidth
            && p.health == w.player.health && p.attackCooldown == w.player.attackCooldown
            && p.attacking == w.player.attacking
  {
    var start := Integrate(Steer(w.player, keys)).(onGround := false);
    ResolveAllKeepsStatus(start, w.platforms);
    ResolveAllStaysOnStage(start, w.platforms);
  }

  lemma {:induction false} UpdatePlayerInv(w: World, keys: map<string, bool>, noise: Noise)
    requires Inv(w)
    ensures Inv(UpdatePlayer(w, keys, noise))
  {
    var p := Moved(w, keys);
    MovedFacts(w, keys);
    var w1 := w.(player := p);
    assert Inv(w1);
    var w2 := if FellOff(w, p) then LoseLife(w1, noise) else w1;
    if FellOff(w, p) { LoseLifeInv(w1, noise); }
    var w3 := if AttackFires(w2, keys) then Attack(w2, noise) else w2;
    if AttackFires(w2, keys) { AttackInv(w2, noise); }
    assert Inv(w3);
  }

  /** Writing a living enemy into a list of living enemies keeps them all alive. */
  lemma {:induction false} ReplaceAlive(es: seq<Enemy>, i: nat, e: Enemy)
    requires i < |es| && Alive(e) && forall x :: x in es ==> Alive(x)
    ensures forall x :: x in es[i := e] ==> Alive(x)
  {
    forall x | x in es[i := e]
      ensures Alive(x)
    {
      var j :| 0 <= j < |es| && es[i := e][j] == x;
      if j != i { assert es[j] in es; }
    }
  }

  lemma {:induction false} EnemyPassInv(w: World, list: seq<Enemy>, i: nat, detached: bool, noise: Noise)
    requires !detached ==> |w.enemies| == |list|
    requires Inv(w) && forall e :: e in list ==> Alive(e)
    ensures Inv(EnemyPass(w, list, i, detached, noise))
    decreases |list| - i
  {
    if i < |list| {
      var moved := MoveEnemy(list[i]);
      assert list[i] in list;
      var w1 := Place(w, i, moved, detached);
      if !detached { ReplaceAlive(w.enemies, i, moved); }
      assert Inv(w1);
      var w2 := Contact(w1, moved, noise);
      if Touches(w1.player, moved) { TakeDamageInv(w1, ContactDamage, noise); }
      var gone := detached || LifeLostTo(w1, w2);
      var w3 := Place(w2, i, CoolDown(moved), gone);
      if !gone { ReplaceAlive(w2.enemies, i, CoolDown(moved)); }
      assert Inv(w3);
      EnemyPassInv(w3, list, i + 1, gone, noise);
    }
  }

  lemma {:induction false} CoinPassInv(w: World, i: nat, noise: Noise)
    requires Inv(w)
    ensures Inv(CoinPass(w, i, noise))
    decreases |w.coins| - i
  {
    if i < |w.coins| {
      CoinPassInv(CoinStep(w, i, noise), i + 1, noise);
    }
  }

  /** Every gameLoop call preserves the invariant; in particular the player's
      health stays within [0, 300]. */
  lemma TickInv(w: World, keys: map<string, bool>, noise: Noise)
    requires Inv(w)
    ensures Inv(Tick(w, keys, noise))
  {
    if w.running && !w.paused {
      var w1 := UpdatePlayer(w, keys, noise);
      UpdatePlayerInv(w, keys, noise);
      EnemyPassInv(w1, w1.enemies, 0, false, noise);
      CoinPassInv(UpdateEnemies(w1, noise), 0, noise);
    }
  }

  /** startGame establishes the invariant from any state whatever: it
      resets everything the invariant speaks of. */
  lemma StartGameInv(w: World, keys: map<string, bool>, noise: Noise)
    ensures Inv(Started(w, noise))
    ensures Inv(StartGame(w, keys, noise))
  {
    StagePlatformsFit(w.canvas.height);
    TickInv(Started(w, noise), keys, noise);
  }

  /** togglePause twice restores the paused flag (and the whole state). */
  lemma TogglePauseTwice(w: World)
    ensures TogglePause(TogglePause(w)) == w
  {
  }

  // ---------------------------------------------------------------------
  // The player's step

  /** A fall below canvas.height + 100 costs exactly one life; otherwise
      updatePlayer costs none. */
  lemma FallCostsLife(w: World, keys: map<string, bool>, noise: Noise)
    ensures UpdatePlayer(w, keys, noise).lives == if FellOff(w, Moved(w, keys)) then w.lives - 1 else w.lives
  {
  }

  /**
   * The cooldown after updatePlayer: an attack that fires sets it to 30 and
   * the same tick lowers it to 29; otherwise it drops by exactly one when
   * positive and never below 0 (a fall that costs a life resets it first).
   */
  lemma CooldownStep(w: World, keys: map<string, bool>, noise: Noise)
    requires Inv(w)
    requires !FellOff(w, Moved(w, keys))
    ensures var c := UpdatePlayer(w, keys, noise).player.attackCooldown;
            && (AttackFires(w, keys) ==> c == AttackCooldown - 1)
            && (!AttackFires(w, keys) && w.player.attackCooldown > 0 ==> c == w.player.attackCooldown - 1)
            && (!AttackFires(w, keys) && w.player.attackCooldown <= 0 ==> c == w.player.attackCooldown)
            && 0 <= c
  {
    MovedFacts(w, keys);
  }

  /**
   * After updatePlayer the player is grounded exactly when the platform pass
   * landed it on some platform from above: onGround is cleared each tick and
   * only a landing sets it.
   */
  lemma GroundedOnlyWhenLanded(w: World, keys: map<string, bool>, noise: Noise)
    ensures var start := Integrate(Steer(w.player, keys)).(onGround := false);
            UpdatePlayer(w, keys, noise).player.onGround <==>
              exists k :: 0 <= k < |w.platforms| && LandsOn(ResolveAll(start, w.platforms[..k]), w.platforms[k])
  {
    var start := Integrate(Steer(w.player, keys)).(onGround := false);
    GroundedOnlyByLanding(start, w.platforms);
  }

  // ---------------------------------------------------------------------
  // Enemies

  /**
   * The attack flag latches: while it is set, updateEnemies deals no contact
   * damage, so the player, the lives, the score and the particles are left
   * as they were and only the enemies move.
   */
  lemma {:induction false} AttackingPlayerTakesNoContactDamage(w: World, list: seq<Enemy>, i: nat, detached: bool, noise: Noise)
    requires !detached ==> |w.enemies| == |list|
    requires w.player.attacking
    ensures var r := EnemyPass(w, list, i, detached, noise);
            r.player == w.player && r.lives == w.lives && r.score == w.score
            && r.particles == w.particles && r.running == w.running
    decreases |list| - i
  {
    if i < |list| {
      var moved := MoveEnemy(list[i]);
      var w1 := Place(w, i, moved, detached);
      AttackingPlayerTakesNoContactDamage(Place(w1, i, CoolDown(moved), detached), list, i + 1, detached, noise);
    }
  }

  /** How many enemies of `list`, from index i on, touch the player `p` once
      they have moved. */
  function Touching(p: PlayerState, list: seq<Enemy>, i: nat): nat
    decreases |list| - i
  {
    if i >= |list| then 0
    else (if Touches(p, MoveEnemy(list[i])) then 1 else 0) + Touching(p, list, i + 1)
  }

  /** Contact only reads the player's box and attack flag, so a change of
      health does not change who touches. */
  lemma {:induction false} TouchingIgnoresHealth(p: PlayerState, h: int, list: seq<Enemy>, i: nat)
    ensures Touching(p.(health := h), list, i) == Touching(p, list, i)
    decreases |list| - i
  {
    if i < |list| {
      TouchingIgnoresHealth(p, h, list, i + 1);
    }
  }

  /** The enemy pass never gives a life back. */
  lemma {:induction false} EnemyPassLives(w: World, list: seq<Enemy>, i: nat, detached: bool, noise: Noise)
    requires !detached ==> |w.enemies| == |list|
    ensures EnemyPass(w, list, i, detached, noise).lives <= w.lives
    decreases |list| - i
  {
    if i < |list| {
      var r := EnemyStep(w, list[i], i, detached, noise);
      EnemyPassLives(r.0, list, i + 1, r.1, noise);
    }
  }

  /**
   * There is no invulnerability window: in a pass that costs no life, every
   * enemy that touches the non-attacking player after moving hits it for
   * 50, whatever the length of the list, and nothing else about the player
   * changes.
   */
  lemma {:induction false} ContactHitsEveryTick(w: World, list: seq<Enemy>, i: nat, detached: bool, noise: Noise)
    requires !detached ==> |w.enemies| == |list|
    ensures var r := EnemyPass(w, list, i, detached, noise);
            r.lives == w.lives ==>
              r.player == w.player.(health := w.player.health - ContactDamage * Touching(w.player, list, i))
    decreases |list| - i
  {
    if i < |list| {
      var r := EnemyStep(w, list[i], i, detached, noise);
      var rest := EnemyPass(r.0, list, i + 1, r.1, noise);
      assert EnemyPass(w, list, i, detached, noise) == rest;
      ContactHitsEveryTick(r.0, list, i + 1, r.1, noise);
      EnemyPassLives(r.0, list, i + 1, r.1, noise);
      ContactStep(w, list[i], i, detached, noise);
      if rest.lives == w.lives {
        var t := if Touches(w.player, MoveEnemy(list[i])) then 1 else 0;
        assert r.0.player == w.player.(health := w.player.health - ContactDamage * t);
        TouchingIgnoresHealth(w.player, r.0.player.health, list, i + 1);
        assert Touching(w.player, list, i) == t + Touching(w.player, list, i + 1);
      }
    } else {
      assert EnemyPass(w, list, i, detached, noise) == w;
      assert Touching(w.player, list, i) == 0;
    }
  }

  /** One turn of the pass never adds a life, and when it costs none the
      player has lost 50 health if the moved enemy touched it, else nothing. */
  lemma ContactStep(w: World, e: Enemy, i: nat, detached: bool, noise: Noise)
    requires !detached ==> i < |w.enemies|
    ensures var r := EnemyStep(w, e, i, detached, noise);
            && r.0.lives <= w.lives
            && (r.0.lives == w.lives ==>
                  r.0.player == w.player.(health := w.player.health - (if Touches(w.player, MoveEnemy(e)) then ContactDamage else 0)))
  {
  }

  /** The enemies' attack cooldown only ever counts down: contact never sets
      it, so enemies spawned at 0 keep 0. */
  lemma {:induction false} EnemyCooldownOnlyFalls(w: World, list: seq<Enemy>, i: nat, detached: bool, noise: Noise)
    requires !detached ==> |w.enemies| == |list|
    requires forall e :: e in list ==> e.attackCooldown == 0
    requires forall e :: e in w.enemies ==> e.attackCooldown == 0
    ensures forall e :: e in EnemyPass(w, list, i, detached, noise).enemies ==> e.attackCooldown == 0
    decreases |list| - i
  {
    if i < |list| {
      var moved := MoveEnemy(list[i]);
      assert list[i] in list;
      var w1 := Place(w, i, moved, detached);
      ReplaceCooled(w.enemies, i, moved, detached);
      var w2 := Contact(w1, moved, noise);
      assert forall e :: e in w2.enemies ==> e.attackCooldown == 0;
      var gone := detached || LifeLostTo(w1, w2);
      ReplaceCooled(w2.enemies, i, CoolDown(moved), gone);
      EnemyCooldownOnlyFalls(Place(w2, i, CoolDown(moved), gone), list, i + 1, gone, noise);
    }
  }

  lemma {:induction false} ReplaceCooled(es: seq<Enemy>, i: nat, e: Enemy, skip: bool)
    requires !skip ==> i < |es|
    requires e.attackCooldown == 0 && forall x :: x in es ==> x.attackCooldown == 0
    ensures forall x :: x in (if skip then es else es[i := e]) ==> x.attackCooldown == 0
  {
    if !skip {
      forall x | x in es[i := e]
        ensures x.attackCooldown == 0
      {
        var j :| 0 <= j < |es| && es[i := e][j] == x;
        if j != i { assert es[j] in es; }
      }
    }
  }

  // ---------------------------------------------------------------------
  // Coins

  /** Coins at index i and after that were uncollected before and are collected after. */
  function Flipped(before: seq<Coin>, after: seq<Coin>, i: nat): nat
    requires |before| == |after|
    decreases |before| - i
  {
    if i >= |before| then 0
    else (if !before[i].collected && after[i].collected then 1 else 0) + Flipped(before, after, i + 1)
  }

  lemma {:induction false} FlippedAgree(a: seq<Coin>, b: seq<Coin>, after: seq<Coin>, i: nat)
    requires |a| == |b| == |after|
    requires forall j :: i <= j < |a| ==> a[j] == b[j]
    ensures Flipped(a, after, i) == Flipped(b, after, i)
    decreases |a| - i
  {
    if i < |a| {
      FlippedAgree(a, b, after, i + 1);
    }
  }

  /**
   * Each coin is collected at most once: coins before index i are untouched,
   * a collected coin stays as it is, an uncollected one either stays or only
   * flips to collected, and the score rises by exactly 100 per flipped coin.
   */
  lemma {:induction false} CoinsCollectedOnce(w: World, i: nat, noise: Noise)
    requires i <= |w.coins|
    ensures var r := CoinPass(w, i, noise);
            && r.coins[..i] == w.coins[..i]
            && (forall j :: i <= j < |w.coins| && w.coins[j].collected ==> r.coins[j] == w.coins[j])
            && (forall j :: i <= j < |w.coins| ==>
                  r.coins[j] == w.coins[j] || r.coins[j] == w.coins[j].(collected := true))
            && r.score == w.score + CoinReward * Flipped(w.coins, r.coins, i)
    decreases |w.coins| - i
  {
    var r := CoinPass(w, i, noise);
    if i < |w.coins| {
      var w2 := CoinStep(w, i, noise);
      CoinsCollectedOnce(w2, i + 1, noise);
      assert r == CoinPass(w2, i + 1, noise);
      assert r.coins[..i + 1][..i] == r.coins[..i];
      assert w2.coins[..i + 1][..i] == w2.coins[..i];
      assert w2.coins[..i] == w.coins[..i];
      FlippedAgree(w.coins, w2.coins, r.coins, i + 1);
      assert r.coins[i] == r.coins[..i + 1][i] == w2.coins[i];
      var flip := if !w.coins[i].collected && w2.coins[i].collected then 1 else 0;
      assert Flipped(w.coins, r.coins, i) == flip + Flipped(w.coins, r.coins, i + 1);
      assert w2.score == w.score + CoinReward * flip;
    }
  }

  /**
   * updateCoins collects exactly the coins the player overlaps: from index
   * i on, a coin ends collected when it was collected already or the player
   * overlaps it, and stays as it was otherwise; the player, the lives and
   * the enemies are untouched.
   */
  lemma {:induction false} CoinPassCollects(w: World, i: nat, noise: Noise)
    requires i <= |w.coins|
    ensures var r := CoinPass(w, i, noise);
            && r.player == w.player && r.lives == w.lives && r.enemies == w.enemies && r.running == w.running
            && (forall j :: 0 <= j < i ==> r.coins[j] == w.coins[j])
            && (forall j :: i <= j < |w.coins| ==>
                  (r.coins[j].collected <==> w.coins[j].collected || Overlap(w.player.Bounds(), w.coins[j].Bounds())))
            && (forall j :: i <= j < |w.coins| && !Overlap(w.player.Bounds(), w.coins[j].Bounds()) ==> r.coins[j] == w.coins[j])
    decreases |w.coins| - i
  {
    if i < |w.coins| {
      var w2 := CoinStep(w, i, noise);
      CoinPassCollects(w2, i + 1, noise);
      var r := CoinPass(w2, i + 1, noise);
      assert r == CoinPass(w, i, noise);
      assert w2.player == w.player;
      assert r.coins[i] == w2.coins[i];
    }
  }

  // ---------------------------------------------------------------------
  // Session

  /** gameLoop does nothing once the game has stopped, and nothing while paused. */
  lemma GameLoopGate(w: World, keys: map<string, bool>, noise: Noise)
    requires !w.running || w.paused
    ensures Tick(w, keys, noise) == w
  {
  }

  /** A game that has been started runs, unpaused, from score 0, 5 lives and
      stage 1, and its first tick finds the stage freshly built. */
  lemma StartGameBegins(w: World, noise: Noise)
    ensures var s := Started(w, noise);
            s.running && !s.paused && s.score == 0 && s.lives == StartLives && s.stage == 1
            && |s.platforms| == 20 && |s.enemies| == 15 && |s.coins| == CoinCount && s.particles == []
  {
  }
}
