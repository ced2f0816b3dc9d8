// Records and tuning constants shared by the platformer simulation
// (game-objects.js and game-core.js).

module Entities {

  // Tuning constants of game-core.js.
  const Gravity: real := 0.8
  const JumpPower: real := 18.0
  const MoveSpeed: real := 6.0
  const StageWidth: real := 8000.0

  // Horizontal velocity is multiplied by this when no direction key is held.
  const Friction: real := 0.8

  // The player record's fixed box and health ceiling, and the spawn point
  // that resetPlayer restores.
  const PlayerWidth: real := 50.0
  const PlayerHeight: real := 50.0
  const PlayerMaxHealth: int := 300
  const SpawnX: real := 100.0
  const SpawnY: real := 800.0

  // Combat and scoring.
  const AttackRange: real := 80.0
  const AttackDamage: int := 50
  const AttackCooldown: int := 30
  const KillReward: int := 200
  const CoinReward: int := 100
  const ContactDamage: int := 50
  const StartLives: int := 5

  // Every particle is born with this many ticks to live.
  const ParticleLife: int := 30

  // The colours createParticle is called with.
  const JumpColour: string := "#87CEEB"
  const HitColour: string := "#FF0000"
  const GoldColour: string := "#FFD700"

  /** An axis-aligned box: left edge x, top edge y (y grows downwards). */
  datatype Box = Box(x: real, y: real, width: real, height: real)

  /** The strict AABB overlap test written out at every collision site. */
  predicate Overlap(a: Box, b: Box) {
    && a.x < b.x + b.width
    && a.x + a.width > b.x
    && a.y < b.y + b.height
    && a.y + a.height > b.y
  }

  /** The mutable fields of the module-level `player` record. */
  datatype PlayerState = PlayerState(
    x: real,
    y: real,
    velocityX: real,
    velocityY: real,
    jumping: bool,
    onGround: bool,
    health: int,
    direction: int,
    attacking: bool,
    attackCooldown: int)
  {
    function Bounds(): Box {
      Box(x, y, PlayerWidth, PlayerHeight)
    }
  }

  /** The player record as it is first declared. */
  const InitialPlayer: PlayerState :=
    PlayerState(SpawnX, SpawnY, 0.0, 0.0, false, false, PlayerMaxHealth, 1, false, 0)

  datatype PlatformKind = Ground | Elevated

  datatype Platform = Platform(x: real, y: real, width: real, height: real, kind: PlatformKind)
  {
    function Bounds(): Box {
      Box(x, y, width, height)
    }
  }

  datatype Enemy = Enemy(
    x: real,
    y: real,
    width: real,
    height: real,
    kind: string,
    health: int,
    maxHealth: int,
    velocityX: real,
    direction: int,
    attackCooldown: int)
  {
    function Bounds(): Box {
      Box(x, y, width, height)
    }
  }

  datatype Coin = Coin(x: real, y: real, width: real, height: real, collected: bool)
  {
    function Bounds(): Box {
      Box(x, y, width, height)
    }
  }

  datatype Particle = Particle(
    x: real,
    y: real,
    velocityX: real,
    velocityY: real,
    color: string,
    life: int)

  /**
   * The values Math.random() returns. Coin i of a generated stage takes
   * coinX(i) and coinY(i); a particle created when the particle list holds n
   * entries takes sparkX(n) and sparkY(n).
   */
  datatype Noise = Noise(
    coinX: nat -> real,
    coinY: nat -> real,
    sparkX: nat -> real,
    sparkY: nat -> real)

  /** A key counts as held when the key map has it set to true; a key never
      pressed is absent, which reads as false. */
  predicate Held(keys: map<string, bool>, code: string) {
    code in keys && keys[code]
  }

  /** The particle createParticle builds as the `n`-th entry of the list. */
  function Spark(x: real, y: real, color: string, noise: Noise, n: nat): (p: Particle)
    ensures p.x == x && p.y == y && p.color == color && p.life == ParticleLife
  {
    Particle(x, y, (noise.sparkX(n) - 0.5) * 4.0, (noise.sparkY(n) - 0.5) * 4.0, color, ParticleLife)
  }

  /** Decrement-if-positive, used for both the player's and the enemies' attack cooldown. */
  function TickCooldown(n: int): (r: int)
    ensures n > 0 ==> r == n - 1
    ensures n <= 0 ==> r == n
    ensures 0 <= n ==> 0 <= r
  {
    if n > 0 then n - 1 else n
  }
}
