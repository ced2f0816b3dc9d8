// The fixed stage that generateStage (game-objects.js) builds: one ground
// platform, nineteen elevated platforms, fifteen enemies and fifty coins.

module Stage {
  import opened Entities
  import opened Physics

  /** One entry of the elevated-platform position table. */
  datatype Spot = Spot(x: real, y: real, width: real, height: real)

  const PlatformLayout: seq<Spot> := [
    Spot(400.0, 700.0, 200.0, 20.0),
    Spot(800.0, 600.0, 200.0, 20.0),
    Spot(1200.0, 500.0, 200.0, 20.0),
    Spot(1600.0, 400.0, 200.0, 20.0),
    Spot(2000.0, 300.0, 200.0, 20.0),
    Spot(2400.0, 400.0, 200.0, 20.0),
    Spot(2800.0, 500.0, 200.0, 20.0),
    Spot(3200.0, 600.0, 200.0, 20.0),
    Spot(3600.0, 700.0, 200.0, 20.0),
    Spot(4000.0, 600.0, 200.0, 20.0),
    Spot(4400.0, 500.0, 200.0, 20.0),
    Spot(4800.0, 400.0, 200.0, 20.0),
    Spot(5200.0, 300.0, 200.0, 20.0),
    Spot(5600.0, 400.0, 200.0, 20.0),
    Spot(6000.0, 500.0, 200.0, 20.0),
    Spot(6400.0, 600.0, 200.0, 20.0),
    Spot(6800.0, 700.0, 200.0, 20.0),
    Spot(7200.0, 600.0, 200.0, 20.0),
    Spot(7600.0, 500.0, 200.0, 20.0)
  ]

  /** The x of each entry of the enemy position table; every enemy stands 60
      above the ground level. */
  const EnemySpawnXs: seq<real> := [
    500.0, 1000.0, 1500.0, 2000.0, 2500.0, 3000.0, 3500.0, 4000.0,
    4500.0, 5000.0, 5500.0, 6000.0, 6500.0, 7000.0, 7500.0
  ]

  const EnemyKind: string := "나무돌이"
  const EnemyHealth: int := 100
  const CoinCount: nat := 50
  const CoinSize: real := 20.0

  function GroundLevel(canvasHeight: real): real {
    canvasHeight - 100.0
  }

  function GroundPlatform(canvasHeight: real): (pl: Platform)
    ensures pl.kind == Ground && pl.x == 0.0 && pl.width == StageWidth
    ensures pl.y + pl.height == canvasHeight
  {
    Platform(0.0, GroundLevel(canvasHeight), StageWidth, 100.0, Ground)
  }

  function Raise(s: Spot): Platform {
    Platform(s.x, s.y, s.width, s.height, Elevated)
  }

  function Spawn(x: real, canvasHeight: real): Enemy {
    Enemy(x, GroundLevel(canvasHeight) - 60.0, 40.0, 60.0, EnemyKind, EnemyHealth, EnemyHealth, -1.0, -1, 0)
  }

  function Drop(i: nat, canvasHeight: real, noise: Noise): Coin {
    Coin(noise.coinX(i) * StageWidth, noise.coinY(i) * (canvasHeight - 200.0) + 100.0, CoinSize, CoinSize, false)
  }

  function ElevatedPlatforms(): seq<Platform> {
    seq(|PlatformLayout|, k requires 0 <= k < |PlatformLayout| => Raise(PlatformLayout[k]))
  }

  /** The platform list: the ground, then the elevated platforms in table order. */
  function StagePlatforms(canvasHeight: real): (ps: seq<Platform>)
    ensures |ps| == 20
    ensures ps[0] == GroundPlatform(canvasHeight)
    ensures forall k :: 1 <= k < |ps| ==> ps[k].kind == Elevated
  {
    [GroundPlatform(canvasHeight)] + ElevatedPlatforms()
  }

  /** Fifteen enemies with full health of 100, all walking left. */
  function StageEnemies(canvasHeight: real): (es: seq<Enemy>)
    ensures |es| == 15
    ensures forall e :: e in es ==> e.health == e.maxHealth == EnemyHealth && e.attackCooldown == 0
  {
    seq(|EnemySpawnXs|, k requires 0 <= k < |EnemySpawnXs| => Spawn(EnemySpawnXs[k], canvasHeight))
  }

  /** Fifty coins at random positions, none collected. */
  function StageCoins(canvasHeight: real, noise: Noise): (cs: seq<Coin>)
    ensures |cs| == CoinCount
    ensures forall c :: c in cs ==> !c.collected
  {
    seq(CoinCount, i requires 0 <= i < CoinCount => Drop(i, canvasHeight, noise))
  }

  /** No platform of the stage can push the player off the stage sideways. */
  lemma StagePlatformsFit(canvasHeight: real)
    ensures forall pl :: pl in StagePlatforms(canvasHeight) ==> Fits(pl)
  {
    var ps := StagePlatforms(canvasHeight);
    forall pl | pl in ps
      ensures Fits(pl)
    {
      var k :| 0 <= k < |ps| && ps[k] == pl;
      if k > 0 {
        assert pl == Raise(PlatformLayout[k - 1]);
        assert 400.0 <= PlatformLayout[k - 1].x <= 7600.0 && PlatformLayout[k - 1].width == 200.0;
      }
    }
  }
}
