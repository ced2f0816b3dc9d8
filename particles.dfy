// Particle ageing of updateParticles (game-objects.js).

module Particles {
  import opened Entities

  /** One tick of a particle: it drifts by its velocity and loses one life. */
  function Age(p: Particle): (q: Particle)
    ensures q.x == p.x + p.velocityX && q.y == p.y + p.velocityY
    ensures q.life == p.life - 1
    ensures q.color == p.color && q.velocityX == p.velocityX && q.velocityY == p.velocityY
  {
    p.(x := p.x + p.velocityX, y := p.y + p.velocityY, life := p.life - 1)
  }

  /** The particles that outlive this tick, aged, in their original order. */
  function Survivors(ps: seq<Particle>): (r: seq<Particle>)
    ensures |r| <= |ps|
    ensures forall q :: q in r ==> q.life > 0
  {
    if ps == [] then []
    else (if Age(ps[0]).life > 0 then [Age(ps[0])] else []) + Survivors(ps[1..])
  }

  /** Survivors works particle by particle, so it keeps the list's order. */
  lemma {:induction false} SurvivorsSplit(a: seq<Particle>, b: seq<Particle>)
    ensures Survivors(a + b) == Survivors(a) + Survivors(b)
  {
    if a != [] {
      assert (a + b)[1..] == a[1..] + b;
      SurvivorsSplit(a[1..], b);
    } else {
      assert a + b == b;
    }
  }

  /** One step of the reverse splice loop of updateParticles: ageing entry i
      in place, and splicing it out when its life has run out, extends the
      processed suffix by one. */
  lemma {:induction false} ReverseStep(ps: seq<Particle>, i: nat, cur: seq<Particle>)
    requires i < |ps| && cur == ps[..i + 1] + Survivors(ps[i + 1..])
    ensures var aged := Age(cur[i]);
            (if aged.life <= 0 then cur[i := aged][..i] + cur[i := aged][i + 1..] else cur[i := aged])
              == ps[..i] + Survivors(ps[i..])
  {
    assert cur[i] == ps[i];
    assert ps[i..] == [ps[i]] + ps[i + 1..];
    SurvivorsSplit([ps[i]], ps[i + 1..]);
    assert Survivors([ps[i]]) == if Age(ps[i]).life > 0 then [Age(ps[i])] else [];
    assert ps[..i + 1] == ps[..i] + [ps[i]];
  }

  /**
   * Exactly the particles with life left after ageing are kept: a particle is
   * kept (aged) iff its life was above 1, and everything kept comes from
   * the list.
   */
  lemma {:induction false} SurvivorsExact(ps: seq<Particle>)
    ensures forall p :: p in ps && p.life > 1 ==> Age(p) in Survivors(ps)
    ensures forall q :: q in Survivors(ps) ==> exists p :: p in ps && Age(p) == q && p.life > 1
  {
    if ps != [] {
      SurvivorsExact(ps[1..]);
      forall p | p in ps && p.life > 1
        ensures Age(p) in Survivors(ps)
      {
        if p != ps[0] {
          assert p in ps[1..];
        }
      }
      forall q | q in Survivors(ps)
        ensures exists p :: p in ps && Age(p) == q && p.life > 1
      {
        if q in Survivors(ps[1..]) {
          var p :| p in ps[1..] && Age(p) == q && p.life > 1;
          assert p in ps;
        } else {
          assert Age(ps[0]) == q;
        }
      }
    }
  }

  /** How many particles expire this tick. */
  function Expiring(ps: seq<Particle>): nat {
    if ps == [] then 0 else (if ps[0].life <= 1 then 1 else 0) + Expiring(ps[1..])
  }

  /** Exactly the expiring particles are removed. */
  lemma {:induction false} SurvivorsCount(ps: seq<Particle>)
    ensures |Survivors(ps)| == |ps| - Expiring(ps)
  {
    if ps != [] {
      SurvivorsCount(ps[1..]);
    }
  }
}
