# game_cha platformer and story navigator, modelled in Dafny

This project models the game logic of the browser platformer `game_cha` (the
player Momo, tree enemies, coins and an eight-thousand-pixel stage) and its
visual-novel story mode.

- **Data** (`entities.dfy`): the player record, platforms, enemies, coins,
  particles and the game's constants.
- **Player physics** (`physics.dfy`): steering with friction, gravity,
  stage clamping, platform collision resolution and the camera.
- **Stage** (`stage.dfy`): the fixed stage that `generateStage` builds.
- **Attack** (`combat.dfy`): the `attack` sweep, including its splice
  inside `forEach`.
- **Particles** (`particles.dfy`): particle ageing and removal.
- **Spec functions** (`simulation.dfy`): every operation of `game-core.js`
  and `game-objects.js` as a pure function on a `World` value.
- **Invariant** (`properties.dfy`): the invariant `Inv` (health, cooldown,
  player x, camera, platform fit, live enemies, score) and the lemmas about
  the operations.
- **Imperative model** (`game.dfy`):
  - class `Player` holds the mutable player record;
  - class `Game` holds the mutable globals and lists;
  - each method is proved to leave exactly the state that its spec
    function computes from the old state.
- **Scene graph** (`story_data.dfy`): `STORY_DATA` as a constant, with
  lemmas that it is well formed.
- **Navigator** (`story_system.dfy`):
  - pure functions for each step;
  - class `StorySystem`, whose methods are proved against those functions;
  - safety lemmas showing that the `TypeError` paths cannot be reached
    from reachable states.

Randomness (`Math.random`) is a `Noise` value of four functions from a draw
index to a real. Coin `i` uses draw `i`. A particle created when the list
holds `n` entries uses draw `n`. `canvas` is a constant record of width and
height. The keyboard state `keys` is an input `map<string, bool>`. A key
counts as held when it is present and true. Arithmetic is on unbounded `int`
and exact `real`.

### Quirks of the code that the model keeps

- `attack` sets `player.attacking` and only `resetPlayer` clears it. After
  one attack no further attack fires, and contact damage is suppressed
  until a life is lost.
- `attack` splices inside `forEach`. The enemy right after a removed one is
  skipped in that call (`Combat.NeighbourOfKillIsSkipped`).
- There is no invulnerability window. Overlap with a non-attacking player
  costs 50 health on every tick, from every enemy it overlaps
  (`Properties.ContactHitsEveryTick`).
- Contact damage does not look at the enemy's `attackCooldown`.
- An enemy's `attackCooldown` is only ever decremented.
- If a life is lost during `updateEnemies`, `generateStage` rebinds
  `enemies`. `forEach` then keeps walking the old array, and its later
  writes go to detached objects. The model tracks this with a `detached`
  flag.
- `displayCurrentLine` calls the undefined `endScene`. The model reports
  this as the fault `EndSceneMissing`.

## Model

| member | source | states |
|---|---|---|
| Entities.Spark | game-core.js:229-238 | a created particle sits at the given point with the given colour and 30 frames of life |
| Entities.TickCooldown | game-objects.js:94-96 | a positive cooldown drops by exactly 1; a non-positive one is unchanged; a non-negative one never goes below 0 |
| Physics.Steer | game-objects.js:32-40 | left wins over right: left gives velocity −6 and facing −1, right gives +6 and facing 1, neither multiplies the velocity by the 0.8 friction; nothing else changes |
| Physics.ClampX | game-objects.js:50-51 | x ends in [0, 8000 − 50]; values inside are kept, values below become 0, values above become 7950 |
| Physics.Integrate | game-objects.js:43-51 | velocityY gains gravity 0.8, y moves by the new velocityY, x becomes ClampX(x + velocityX) and so ends on the stage, and no other field changes |
| Physics.Resolve | game-objects.js:56-80 | a platform the player does not overlap changes nothing. A changed player no longer overlaps the platform. A landing puts the player flush on top with velocityY 0, grounded and not jumping. A hit from below puts y at the platform's bottom with velocityY 0. A side hit puts the player flush against that side with velocityX 0. onGround holds exactly when it did before or the player landed. Other fields are untouched |
| Physics.ResolveAll | game-objects.js:54-81 | the definition of the forEach over the platforms: Resolve applied to each platform in list order; GroundedOnlyByLanding, ResolveAllKeepsStatus and ResolveAllStaysOnStage state its promises |
| Physics.GroundedOnlyByLanding | game-objects.js:54-81 | starting ungrounded, the platform pass grounds the player exactly when some platform, met in order, is landed on from above |
| Physics.ResolveAllKeepsStatus | game-objects.js:55-81 | the platform pass never changes health, direction, attacking or cooldown |
| Physics.ResolveAllStaysOnStage | game-objects.js:50-81 | when every platform lies inside the stage, side pushes keep x in [0, 8000 − 50] |
| Physics.Camera | game-objects.js:99-101 | when the canvas is no wider than the stage, cameraX ends in [0, 8000 − canvas.width]; it centres the player whenever that is in range; a centre left of 0 gives 0 and a centre beyond 8000 − canvas.width gives 8000 − canvas.width |
| Stage.GroundPlatform | game-objects.js:179-186 | the ground starts at x 0, spans the whole stage and ends at the canvas bottom |
| Stage.StagePlatforms | game-objects.js:173-219 | 20 platforms: the ground first, then the 19 elevated ones |
| Stage.StageEnemies | game-objects.js:221-253 | 15 enemies, each with health = maxHealth = 100 and cooldown 0 |
| Stage.StageCoins | game-objects.js:255-266 | 50 coins, none collected |
| Stage.StagePlatformsFit | game-objects.js:178-219 | every platform of the stage lies within the stage width |
| Combat.Dist | game-core.js:156 | the distance is non-negative and equals the difference or its negation |
| Combat.Sweep | game-core.js:155-169 | kept enemies plus slain enemies are as many as there were; the slain list only grows |
| Combat.SweepStep | game-core.js:155-168 | one forEach visit: an index past the end or out of reach changes nothing; an enemy in reach loses 50 and, at health ≤ 0, is spliced out and counted slain |
| Combat.AttackSweep | game-core.js:155-168 | the definition of attack's sweep: Sweep over every index of the list as it stood when forEach began; AttackSweepFacts, AttackHitsInReach, FirstKill and NeighbourOfKillIsSkipped state its promises |
| Combat.SweepHits | game-core.js:155-166 | while nobody dies, the sweep takes exactly 50 from every visited enemy in reach and leaves the others unchanged |
| Combat.AttackHitsInReach | game-core.js:155-166 | an attack that kills nobody ends with every enemy in reach hit exactly once, every other enemy unchanged, and nobody slain |
| Combat.SweepKeepsVisited | game-core.js:155-168 | the sweep never changes an enemy at an index it has already passed |
| Combat.FirstKill | game-core.js:157-165 | the first enemy in reach that one blow brings to 0 or below is the first enemy slain, and every enemy before it ends hit once if in reach and unchanged otherwise |
| Combat.KillAt | game-core.js:157-163 | a visit that kills the enemy at the current index splices it out of the list and records it as the first slain enemy |
| Combat.SlainAreDead | game-core.js:158-163 | every removed enemy has health ≤ 0 |
| Combat.SurvivorsAlive | game-core.js:158-163 | when all enemies were alive, every kept enemy still has health > 0 |
| Combat.OutOfReachUntouched | game-core.js:156-157 | an enemy 80 or more away stays in the list unchanged |
| Combat.AtMostOneBlow | game-core.js:155-168 | every kept or slain enemy is an original one, or an original one after a single blow of 50 |
| Combat.AttackSweepFacts | game-core.js:155-168 | kept plus slain equals the original count; the slain are dead and were hit once; the kept are alive and were hit at most once; enemies out of reach are kept. The hit direction is AttackHitsInReach and the kill direction FirstKill |
| Combat.NeighbourOfKillIsSkipped | game-core.js:155-163 | of two adjacent enemies in reach with 50 health, the first dies and the second is skipped, keeping its health |
| Particles.Age | game-objects.js:157-160 | x and y drift by the velocity; life drops by 1; colour and velocity are kept |
| Particles.Survivors | game-objects.js:155-166 | never longer than the input; every survivor has life > 0 |
| Particles.SurvivorsSplit | game-objects.js:156-165 | the survivors of a concatenation are the concatenation of the survivors, so order is kept |
| Particles.ReverseStep | game-objects.js:156-165 | one step of the reverse loop at index i extends the processed suffix by one particle, aged or removed |
| Particles.SurvivorsExact | game-objects.js:160-164 | a particle survives (aged) exactly when its life was above 1 |
| Particles.SurvivorsCount | game-objects.js:162-164 | exactly the expiring particles are removed |
| Simulation.Emit | game-core.js:229-238 | exactly one particle is appended, with the given point and colour and life 30; nothing else changes |
| Simulation.ResetPlayer | game-core.js:138-146 | x 100, y 800, both velocities 0, health 300, not attacking, cooldown 0; jumping, onGround and direction are kept |
| Simulation.Jump | game-core.js:124-135 | on the ground and not jumping: velocityY −18, jumping, not grounded, one sky-blue particle; otherwise nothing changes |
| Simulation.KillSparks | game-core.js:165 | one spark per slain enemy, in order of death |
| Simulation.KillSparksRed | game-core.js:165 | every kill spark is red, has 30 frames of life and starts at the centre of the enemy it marks |
| Simulation.KillStep | game-core.js:163-165 | the spark of the next slain enemy extends the sparks of the earlier ones |
| Simulation.Attack | game-core.js:149-175 | attacking is set and cooldown is 30. The enemies are the sweep's survivors. Score rises 200 per removed enemy. The particle list gains the red kill sparks in order of death, then one gold particle at the player's mid-height, at the player's right edge when facing right and its left edge otherwise. Nothing else changes |
| Simulation.GenerateStage | game-objects.js:169-266 | platforms, enemies and coins are built anew and the particles are emptied; nothing else changes |
| Simulation.GameOver | game-core.js:212-214 | the game stops and nothing else changes |
| Simulation.LoseLife | game-core.js:194-209 | lives drop by 1. At 0 or below, only running turns false. Otherwise the player is reset, platforms, enemies and coins are the freshly generated stage, particles are emptied, and score, camera, running, paused and stage are kept |
| Simulation.TakeDamage | game-core.js:178-191 | damage that leaves health above 0 lowers health and appends one red particle, and nothing else changes. Damage reaching 0 costs a life. With none left, the game is over: health 0, the red particle appended, and nothing else changed. With lives left, the player is reset and platforms, enemies and coins are the fresh stage, particles are emptied, and score, camera, running, paused and stage are kept |
| Simulation.TogglePause | game-core.js:116-121 | no-op when not running; otherwise only paused flips |
| Simulation.Started | game-core.js:86-100 | running, unpaused, score 0, lives 5, stage 1, camera 0, player reset, stage rebuilt |
| Simulation.StartGame | game-core.js:76-107 | the definition of startGame: Started followed by one Tick; StartGameBegins and StartGameInv state its promises |
| Simulation.MoveEnemy | game-objects.js:108-114 | the enemy moves by its velocity. At or beyond a stage edge, velocity and direction are both negated; otherwise both are kept |
| Simulation.EnemyStep | game-objects.js:106-132 | when the list is still live, slot i ends holding the moved, cooled enemy and no other slot changes; a life lost with lives left replaces the list with the fresh stage enemies and detaches the pass for good. A non-attacking player the moved enemy overlaps loses 50 health, or a life when that empties its health. Without contact, nothing but the list changes |
| Simulation.Place | game-objects.js:106-131 | a write lands in slot i of the current list only while that list is the one being iterated |
| Simulation.CoinStep | game-objects.js:137-150 | an uncollected coin the player overlaps becomes collected, score rises by exactly 100 and one gold particle is appended; otherwise nothing changes. No other coin and nothing outside coins, score and particles changes |
| Simulation.CoinPass | game-objects.js:136-152 | the coin count is kept |
| Simulation.UpdateParticles | game-objects.js:155-166 | only the particle list changes |
| Simulation.Tick | game-core.js:264-276 | a stopped or paused game is left exactly as it was |
| Simulation.Moved | game-objects.js:31-81 | the definition of updatePlayer's movement: steering, Integrate, onGround cleared, then ResolveAll; MovedFacts and GroundedOnlyWhenLanded state its promises |
| Simulation.AfterMove | game-objects.js:83-101 | the definition of the rest of updatePlayer: the fall check, the attack key, the cooldown tick and the camera, in that order; FallCostsLife and CooldownStep state its promises |
| Simulation.UpdatePlayer | game-objects.js:30-102 | the definition of updatePlayer: Moved, then AfterMove; UpdatePlayerInv, FallCostsLife, CooldownStep and GroundedOnlyWhenLanded state its promises |
| Simulation.Contact | game-objects.js:117-126 | the definition of the contact check: takeDamage(50) exactly when Touches holds; EnemyStep and ContactStep state its effect |
| Simulation.EnemyPass | game-objects.js:106-132 | the definition of the forEach of updateEnemies from index i over the captured array; EnemyPassInv, EnemyPassLives, ContactHitsEveryTick, AttackingPlayerTakesNoContactDamage and EnemyCooldownOnlyFalls state its promises |
| Simulation.UpdateEnemies | game-objects.js:105-133 | the definition of updateEnemies: EnemyPass from index 0 on the current list, not detached; the EnemyPass lemmas state its promises |
| Simulation.UpdateCoins | game-objects.js:136-152 | the definition of updateCoins: CoinPass from index 0; CoinPassCollects, CoinsCollectedOnce and CoinPassInv state its promises |
| Properties.InitialInv | game-objects.js:6-27 | the initial state satisfies the invariant |
| Properties.GenerateStageInv | game-objects.js:169-266 | generateStage keeps the invariant |
| Properties.LoseLifeInv | game-core.js:194-209 | loseLife keeps the invariant |
| Properties.TakeDamageInv | game-core.js:178-188 | for non-negative damage, health stays in [0, 300] and the invariant holds |
| Properties.AttackInv | game-core.js:149-175 | attack keeps the invariant |
| Properties.MovedFacts | game-objects.js:30-81 | after movement and platforms the player is on the stage and keeps health, cooldown and attacking |
| Properties.UpdatePlayerInv | game-objects.js:30-102 | updatePlayer keeps the invariant |
| Properties.EnemyPassInv | game-objects.js:105-133 | updateEnemies keeps the invariant |
| Properties.CoinPassInv | game-objects.js:136-152 | updateCoins keeps the invariant |
| Properties.TickInv | game-core.js:264-276 | a gameLoop tick keeps the invariant |
| Properties.StartGameInv | game-core.js:76-107 | a started game satisfies the invariant from any state |
| Properties.TogglePauseTwice | game-core.js:116-121 | toggling twice restores the state |
| Properties.FallCostsLife | game-objects.js:83-86 | a tick of updatePlayer costs one life exactly when the player ends below canvas.height + 100 |
| Properties.CooldownStep | game-objects.js:88-96 | on a tick without a fall (a fall resets the cooldown first): a firing attack leaves cooldown 29; otherwise a positive cooldown drops by 1; it never goes below 0 |
| Properties.GroundedOnlyWhenLanded | game-objects.js:54-66 | after updatePlayer the player is grounded exactly when some platform landed it from above |
| Properties.AttackingPlayerTakesNoContactDamage | game-objects.js:117-126 | while attacking is latched, updateEnemies leaves player, lives, score, particles and running unchanged |
| Properties.EnemyPassLives | game-objects.js:106-132 | updateEnemies never raises the number of lives |
| Properties.ContactStep | game-objects.js:117-126 | one enemy's turn never adds a life; when it costs none, the player has lost exactly 50 health if the moved enemy touched it, and nothing otherwise |
| Properties.ContactHitsEveryTick | game-objects.js:106-132 | for a list of any length: in an updateEnemies pass that costs no life, the player loses exactly 50 health per enemy that overlaps the non-attacking player after moving, and nothing else about the player changes; no invulnerability window |
| Properties.EnemyCooldownOnlyFalls | game-objects.js:128-131 | enemy cooldowns that start at 0 stay 0, because nothing sets them |
| Properties.CoinPassCollects | game-objects.js:136-152 | after updateCoins a coin is collected exactly when it was already or the player overlaps it; coins it does not overlap are unchanged; player, lives, enemies and running are untouched |
| Properties.CoinsCollectedOnce | game-objects.js:137-149 | each coin flips at most once, only from uncollected to collected, and score rises by exactly 100 per flipped coin |
| Properties.GameLoopGate | game-core.js:264-276 | no update while paused or not running |
| Properties.StartGameBegins | game-core.js:86-100 | a started game runs, unpaused, with score 0, 5 lives, stage 1, 20 platforms, 15 enemies, 50 coins and no particles |
| Game.Player.constructor | game-objects.js:6-20 | the player record starts with its literal values |
| Game.Game.constructor | game-core.js:6-10 | the globals start stopped, unpaused, score 0, lives 5, stage 1, lists empty; the invariant holds |
| Game.Game.CreateParticle | game-core.js:229-238 | pushes exactly the new particle |
| Game.Game.TogglePause | game-core.js:116-121 | leaves Simulation.TogglePause of the old state |
| Game.Game.Jump | game-core.js:124-135 | leaves Simulation.Jump of the old state |
| Game.Game.ResetPlayer | game-core.js:138-146 | updates only the seven reset fields of the player |
| Game.Game.Attack | game-core.js:149-175 | leaves Simulation.Attack of the old state |
| Game.Game.StrikeEnemies | game-core.js:155-169 | the index loop leaves the sweep's survivors, adds 200 per slain enemy, and appends one spark per slain enemy |
| Game.Game.Strike | game-core.js:156-168 | one forEach visit matches one step of the sweep |
| Game.Game.Wound | game-core.js:158-166 | hitting an enemy in reach matches one step of the sweep |
| Game.Game.GameOver | game-core.js:212-214 | leaves Simulation.GameOver of the old state |
| Game.Game.GenerateStage | game-objects.js:169-266 | leaves Simulation.GenerateStage of the old state |
| Game.Game.BuildPlatforms | game-objects.js:178-219 | the push loops build the stage's platform list |
| Game.Game.SpawnEnemies | game-objects.js:221-253 | the push loop builds the stage's enemy list |
| Game.Game.ScatterCoins | game-objects.js:255-266 | the 50-step loop builds the stage's coin list |
| Game.Game.LoseLife | game-core.js:194-209 | leaves Simulation.LoseLife of the old state |
| Game.Game.TakeDamage | game-core.js:178-191 | leaves Simulation.TakeDamage of the old state |
| Game.Game.Hurt | game-core.js:179-183 | health drops by the damage clamped at 0 and one red particle is added |
| Game.Game.UpdatePlayer | game-objects.js:30-102 | leaves Simulation.UpdatePlayer of the old state |
| Game.Game.AfterMove | game-objects.js:83-101 | the fall check, the attack key, the cooldown and the camera, in that order |
| Game.Game.CheckFall | game-objects.js:83-86 | loseLife exactly when the player is below canvas.height + 100 |
| Game.Game.CheckAttack | game-objects.js:88-91 | attack exactly when F is held, no attack is latched and the cooldown is over |
| Game.Game.Settle | game-objects.js:93-101 | the cooldown ticks and the camera follows |
| Game.Game.MovePlayer | game-objects.js:31-51 | the player becomes Integrate(Steer(old player)) |
| Game.Game.CollidePlatforms | game-objects.js:54-81 | the forEach over the platforms matches the platform pass |
| Game.Game.CollidePlatform | game-objects.js:56-80 | one platform's resolution |
| Game.Game.FollowCamera | game-objects.js:98-101 | cameraX becomes the clamped camera position |
| Game.Game.UpdateEnemies | game-objects.js:105-133 | leaves Simulation.UpdateEnemies of the old state |
| Game.Game.EnemyTurn | game-objects.js:106-132 | one call of the forEach closure on the captured array advances the pass by one index, keeping the list length while not detached |
| Game.Game.UpdateEnemy | game-objects.js:107-131 | one forEach body matches one enemy step, including detachment |
| Game.Game.WalkEnemy | game-objects.js:108-114 | the enemy's walk and edge bounce |
| Game.Game.PlaceEnemy | game-objects.js:108-131 | a write to the iterated enemy lands in the list only while it is attached |
| Game.Game.HitPlayer | game-objects.js:116-126 | contact damage, reporting whether a life was lost with the game going on |
| Game.Game.UpdateCoins | game-objects.js:136-152 | leaves Simulation.UpdateCoins of the old state |
| Game.Game.UpdateCoin | game-objects.js:138-150 | one coin's collection |
| Game.Game.UpdateParticles | game-objects.js:155-166 | the reverse splice loop leaves the aged survivors in order |
| Game.Game.GameLoop | game-core.js:264-280 | one call is one tick, and it keeps the invariant |
| Game.Game.StartGame | game-core.js:76-107 | leaves Simulation.StartGame of the old state, satisfying the invariant |
| Game.Game.RestartGame | game-core.js:110-113 | same as startGame |
| StoryData.Find | story-system.js:188 | the definition of the scenes' find by id: the first scene with that id, or none; FindSpec, FindFirst and FindUnique state its promises |
| StoryData.FindSpec | story-system.js:188 | find returns a scene of the list with that id, and nothing exactly when no scene has it |
| StoryData.FindFirst | story-system.js:188 | the scene found is the first one with the id |
| StoryData.FindUnique | story-system.js:188 | with distinct ids, looking up scene k's id returns scene k |
| StoryData.IdsDistinct | story-data.js:14-163 | scene ids are pairwise distinct |
| StoryData.Lookups | story-data.js:15-162 | each of the twelve ids finds its own scene |
| StoryData.IdsExist | story-data.js:14-163 | every listed scene id resolves |
| StoryData.SceneChecks | story-data.js:15-162 | a scene with known speakers and existing targets is well formed |
| StoryData.StoryWellFormed | story-data.js:6-163 | the story is well formed: ids are distinct and S1 exists; every scene has a line and exactly one continuation among next, battle, choice and end; every speaker is SFX, SYS or a character key; every next, battle and choice target exists |
| StoryData.BattleLoop | story-data.js:90-108 | S7's battle goes to S8 on a win and S7_RETRY on a loss; S7_RETRY returns to S7 |
| StoryData.FinalChoice | story-data.js:122-161 | S9 offers exactly E1 and E2, and both are endings |
| StoryData.EndingReachable | story-data.js:15-162 | S1 exists and a path of next, battle and choice links leads from it to an ending |
| StorySystem.SpeakerLabel | story-system.js:233-243 | SFX is hidden, SYS shows 시스템, a character key shows its name, any other speaker shows as written |
| StorySystem.Display | story-system.js:221-264 | no scene, or an index at or past the end, is the endScene fault. A negative index fails reading the line. Otherwise the line's label and text are shown, with the choices exactly on the last line of a choice scene |
| StorySystem.Start | story-system.js:186-200 | story mode on, index 0, scene = the find result; nothing is shown exactly when no scene has the id, otherwise the first line |
| StorySystem.Next | story-system.js:339-360 | the definition of nextLine: the index moves on; past the last line a choice pins it, else a battle begins, else the next scene starts, else an end hides the UI; NextAdvances, ChoiceScenePins, PastLastLine and NextSafe state its promises |
| StorySystem.BattleResolved | story-system.js:385-392 | the definition of handleBattleResult: startStory of winNext or loseNext when battle data is stored and the id is non-empty; BattleResolution and BattleResultSafe state its promises |
| StorySystem.UiHidden | story-system.js:214-219 | story mode turns off and nothing else changes |
| StorySystem.BattleBegun | story-system.js:362-373 | story mode off and the battle data stored |
| StorySystem.NextAdvances | story-system.js:339-360 | on a line that is not the last, nextLine advances the index by exactly 1 in the same scene and shows that line |
| StorySystem.ChoiceScenePins | story-system.js:339-346 | past the last line of a choice scene the index is pinned to the last line, the scene stays and its choices are shown again |
| StorySystem.PastLastLine | story-system.js:342-356 | without a choice, past the last line: a battle ends story mode and stores the battle; otherwise a next scene is entered at line 0; otherwise an end leaves story mode; otherwise only the index moves |
| StorySystem.BattleResolution | story-system.js:385-392 | victory starts winNext, defeat starts loseNext, and nothing happens without stored battle data |
| StorySystem.InitialOk | story-system.js:3-6 | the initial state is reachable-safe |
| StorySystem.StartSafe | story-system.js:186-193 | when every scene has a line, startStory never raises and keeps the index valid |
| StorySystem.NextSafe | story-system.js:339-360 | when every scene has a line, nextLine from a reachable state with a scene never raises; in particular endScene is never called |
| StorySystem.BattleResultSafe | story-system.js:385-392 | handleBattleResult never raises and keeps the state reachable-safe |
| StorySystem.TheStoryHasLines | story-data.js:15-162 | every scene of the story has a line, so the safety lemmas apply to it |
| StorySystem.FirstBattle | story-data.js:90-109 | from S7's last line, nextLine starts the battle; a defeat enters S7_RETRY and a victory enters S8 at its first line |
| StorySystem.StorySystem.constructor | story-system.js:3-13 | no scene, index 0, story mode off, no battle data, over STORY_DATA |
| StorySystem.StorySystem.DisplayCurrentLine | story-system.js:221-264 | returns what Display prescribes for the current state |
| StorySystem.StorySystem.StartStory | story-system.js:186-200 | leaves the state and outcome of Start |
| StorySystem.StorySystem.StartStoryMode | story-system.js:404-408 | startStory with the default scene S1 |
| StorySystem.StorySystem.HideStoryUI | story-system.js:214-219 | story mode off |
| StorySystem.StorySystem.StartBattle | story-system.js:362-373 | story mode off and battle data stored |
| StorySystem.StorySystem.EndStory | story-system.js:375-382 | leaves the state of UiHidden: story mode off and nothing else changes |
| StorySystem.StorySystem.MakeChoice | story-system.js:335-337 | leaves the state and outcome of startStory of the target |
| StorySystem.StorySystem.NextLine | story-system.js:339-360 | leaves the state and outcome of Next, including the fault when there is no scene |
| StorySystem.StorySystem.HandleBattleResult | story-system.js:385-392 | leaves the state and outcome of the battle resolution |

## Left out

- Rendering is not modelled: canvas drawing, `renderGame`, `updateUI`, the start and game-over screens, `alert` in `showControlGuide`, and `console.log`.
- Audio is not modelled: sound effects and background music, in the game and in the story.
- The keyboard listeners are not modelled; `keys` is an input map. The listeners also call `jump` on Space and `togglePause` on P, and those operations are modelled on their own.
- `requestAnimationFrame` rescheduling is not modelled: `GameLoop` is one call, i.e. one tick.
- `startGame` calls `gameLoop` directly, so a re-entrant call starts a second loop. The model covers the state effect of one call plus its first tick, not the number of loops running.
- Coin positions and particle velocities come from `Math.random`; they are the `Noise` draws, and no range is assumed for them.
- JavaScript floating point is exact `real` arithmetic; rounding is not modelled.
- The `startGame` calls inside `startBattle` and `endStory` are not modelled; they belong to the game side, which is modelled on its own.
- The story UI is not modelled: element construction, styling, emotion colours, buttons, background images and scene music. Scene `background` and `music`, and line `emotion` and `sfx`, are not fields of the model.
- Missing DOM elements, which would make `displayCurrentLine` fail on its `getElementById` results, are not modelled; the elements are taken to exist.
- A speaker equal to a name inherited by every JavaScript object, such as `constructor`, would find an object without a `name`; the character table is a plain map.
- The navigator is constructed over `STORY_DATA`; `startStoryMode`'s test that the global instance exists is not modelled.
- The other constants of story-data.js (the sound-effect table) and the rest of the repository are not part of this model.
