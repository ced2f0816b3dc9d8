// The enemy loop of attack (game-core.js): forEach over the enemy list while
// killed enemies are spliced out of that same list.

module Combat {
  import opened Entities

  function Dist(a: real, b: real): (d: real)
    ensures d >= 0.0 && (d == a - b || d == b - a)
  {
    if a - b < 0.0 then b - a else a - b
  }

  predicate InReach(playerX: real, e: Enemy) {
    Dist(playerX, e.x) < AttackRange
  }

  /** What is left of the enemy list, and the enemies killed, in order of death. */
  datatype SweepResult = SweepResult(enemies: seq<Enemy>, slain: seq<Enemy>)

  /**
   * forEach visits the indices 0 .. n-1 of the list as it was when the loop
   * began, reading each from the live list and skipping an index the list no
   * longer has. An enemy in reach loses 50 health; one at or below 0 is
   * spliced out at its index, so the enemy that followed it slides into the
   * visited slot and is not visited in this call.
   */
  function Sweep(es: seq<Enemy>, playerX: real, k: nat, n: nat, slain: seq<Enemy>): (r: SweepResult)
    decreases n - k
    ensures |r.enemies| + |r.slain| == |es| + |slain|
    ensures |slain| <= |r.slain| && r.slain[..|slain|] == slain
  {
    if k >= n then SweepResult(es, slain)
    else if k >= |es| then Sweep(es, playerX, k + 1, n, slain)
    else
      var e := es[k];
      if InReach(playerX, e) then
        var hurt := e.(health := e.health - AttackDamage);
        if hurt.health <= 0 then Sweep(es[..k] + es[k + 1..], playerX, k + 1, n, slain + [hurt])
        else Sweep(es[k := hurt], playerX, k + 1, n, slain)
      else Sweep(es, playerX, k + 1, n, slain)
  }

  /** The sweep over the whole list, as attack runs it. */
  function AttackSweep(es: seq<Enemy>, playerX: real): SweepResult {
    Sweep(es, playerX, 0, |es|, [])
  }

  /** One visited index of the sweep, in the form the in-place loop of attack
      performs it: the blow is written into the list, then a dead enemy is
      spliced out of the list holding it. */
  lemma SweepStep(es: seq<Enemy>, playerX: real, k: nat, n: nat, slain: seq<Enemy>)
    requires k < n
    ensures k >= |es| || !InReach(playerX, es[k]) ==> Sweep(es, playerX, k, n, slain) == Sweep(es, playerX, k + 1, n, slain)
    ensures k < |es| && InReach(playerX, es[k]) ==>
              var hit := es[k := es[k].(health := es[k].health - AttackDamage)];
              Sweep(es, playerX, k, n, slain)
                == if hit[k].health <= 0 then Sweep(hit[..k] + hit[k + 1..], playerX, k + 1, n, slain + [hit[k]])
                   else Sweep(hit, playerX, k + 1, n, slain)
  {
    if k < |es| && InReach(playerX, es[k]) {
      var hit := es[k := es[k].(health := es[k].health - AttackDamage)];
      assert hit[..k] + hit[k + 1..] == es[..k] + es[k + 1..];
    }
  }

  predicate Alive(e: Enemy) {
    0 < e.health <= e.maxHealth
  }

  /** An enemy as it was before taking one blow. */
  function Healed(e: Enemy): Enemy {
    e.(health := e.health + AttackDamage)
  }

  /** Every enemy the sweep kills had fallen to health 0 or below. */
  lemma {:induction false} SlainAreDead(es: seq<Enemy>, playerX: real, k: nat, n: nat, slain: seq<Enemy>)
    requires forall s :: s in slain ==> s.health <= 0
    ensures forall s :: s in Sweep(es, playerX, k, n, slain).slain ==> s.health <= 0
    decreases n - k
  {
    if k < n && k < |es| {
      var e := es[k];
      if InReach(playerX, e) {
        var hurt := e.(health := e.health - AttackDamage);
        if hurt.health <= 0 {
          SlainAreDead(es[..k] + es[k + 1..], playerX, k + 1, n, slain + [hurt]);
        } else {
          SlainAreDead(es[k := hurt], playerX, k + 1, n, slain);
        }
      } else {
        SlainAreDead(es, playerX, k + 1, n, slain);
      }
    } else if k < n {
      SlainAreDead(es, playerX, k + 1, n, slain);
    }
  }

  /** No enemy at or below 0 health survives a sweep of a list of living enemies. */
  lemma {:induction false} SurvivorsAlive(es: seq<Enemy>, playerX: real, k: nat, n: nat, slain: seq<Enemy>)
    requires forall e :: e in es ==> Alive(e)
    ensures forall e :: e in Sweep(es, playerX, k, n, slain).enemies ==> Alive(e)
    decreases n - k
  {
    if k < n && k < |es| {
      var e := es[k];
      if InReach(playerX, e) {
        var hurt := e.(health := e.health - AttackDamage);
        if hurt.health <= 0 {
          var rest := es[..k] + es[k + 1..];
          assert forall x :: x in rest ==> x in es;
          SurvivorsAlive(rest, playerX, k + 1, n, slain + [hurt]);
        } else {
          assert es[k] in es;
          forall x | x in es[k := hurt]
            ensures Alive(x)
          {
            var j :| 0 <= j < |es| && es[k := hurt][j] == x;
            if j != k { assert es[j] in es; }
          }
          SurvivorsAlive(es[k := hurt], playerX, k + 1, n, slain);
        }
      } else {
        SurvivorsAlive(es, playerX, k + 1, n, slain);
      }
    } else if k < n {
      SurvivorsAlive(es, playerX, k + 1, n, slain);
    }
  }

  /** An enemy out of reach is neither hurt nor removed. */
  lemma {:induction false} OutOfReachUntouched(es: seq<Enemy>, playerX: real, k: nat, n: nat, slain: seq<Enemy>, e: Enemy)
    requires e in es && !InReach(playerX, e)
    ensures e in Sweep(es, playerX, k, n, slain).enemies
    decreases n - k
  {
    if k < n && k < |es| {
      var f := es[k];
      if InReach(playerX, f) {
        assert f != e;
        var hurt := f.(health := f.health - AttackDamage);
        var j :| 0 <= j < |es| && es[j] == e;
        assert j != k;
        if hurt.health <= 0 {
          var rest := es[..k] + es[k + 1..];
          if j < k {
            assert rest[j] == e;
          } else {
            assert rest[j - 1] == e;
          }
          OutOfReachUntouched(rest, playerX, k + 1, n, slain + [hurt], e);
        } else {
          assert es[k := hurt][j] == e;
          OutOfReachUntouched(es[k := hurt], playerX, k + 1, n, slain, e);
        }
      } else {
        OutOfReachUntouched(es, playerX, k + 1, n, slain, e);
      }
    } else if k < n {
      OutOfReachUntouched(es, playerX, k + 1, n, slain, e);
    }
  }

  /**
   * No enemy takes more than one blow per attack: the enemies at or after the
   * next visited index are still originals of the list `orig`, and every enemy
   * before it, as well as every enemy killed, is an original or an original
   * that lost exactly 50 health.
   */
  lemma {:induction false} AtMostOneBlow(orig: seq<Enemy>, es: seq<Enemy>, playerX: real, k: nat, n: nat, slain: seq<Enemy>)
    requires forall j :: k <= j < |es| ==> es[j] in orig
    requires forall j :: 0 <= j < k && j < |es| ==> es[j] in orig || Healed(es[j]) in orig
    requires forall s :: s in slain ==> Healed(s) in orig
    ensures var r := Sweep(es, playerX, k, n, slain);
            && (forall e :: e in r.enemies ==> e in orig || Healed(e) in orig)
            && (forall s :: s in r.slain ==> Healed(s) in orig)
    decreases n - k
  {
    if k >= n {
      forall e | e in es
        ensures e in orig || Healed(e) in orig
      {
        var j :| 0 <= j < |es| && es[j] == e;
      }
    } else if k >= |es| {
      AtMostOneBlow(orig, es, playerX, k + 1, n, slain);
    } else {
      var e := es[k];
      if InReach(playerX, e) {
        var hurt := e.(health := e.health - AttackDamage);
        assert Healed(hurt) == e;
        if hurt.health <= 0 {
          var rest := es[..k] + es[k + 1..];
          forall j | k + 1 <= j < |rest|
            ensures rest[j] in orig
          {
            assert rest[j] == es[j + 1];
          }
          forall j | 0 <= j < k + 1 && j < |rest|
            ensures rest[j] in orig || Healed(rest[j]) in orig
          {
            if j < k { assert rest[j] == es[j]; } else { assert rest[j] == es[j + 1]; }
          }
          AtMostOneBlow(orig, rest, playerX, k + 1, n, slain + [hurt]);
        } else {
          AtMostOneBlow(orig, es[k := hurt], playerX, k + 1, n, slain);
        }
      } else {
        AtMostOneBlow(orig, es, playerX, k + 1, n, slain);
      }
    }
  }

  /**
   * The attack's accounting: each removal is one death, so the list shrinks by
   * exactly the number of enemies slain, every slain enemy had reached 0
   * health, survivors of a list of living enemies are alive, enemies out of
   * reach stay, and nobody takes more than one blow.
   */
  lemma AttackSweepFacts(es: seq<Enemy>, playerX: real)
    requires forall e :: e in es ==> Alive(e)
    ensures var r := AttackSweep(es, playerX);
            && |r.enemies| + |r.slain| == |es|
            && (forall s :: s in r.slain ==> s.health <= 0 && Healed(s) in es)
            && (forall e :: e in r.enemies ==> Alive(e) && (e in es || Healed(e) in es))
            && (forall e :: e in es && !InReach(playerX, e) ==> e in r.enemies)
  {
    SlainAreDead(es, playerX, 0, |es|, []);
    SurvivorsAlive(es, playerX, 0, |es|, []);
    AtMostOneBlow(es, es, playerX, 0, |es|, []);
    forall e | e in es && !InReach(playerX, e)
      ensures e in AttackSweep(es, playerX).enemies
    {
      OutOfReachUntouched(es, playerX, 0, |es|, [], e);
    }
  }

  /** The list after a blow to every enemy in reach at the indices k .. m-1. */
  function Blows(es: seq<Enemy>, playerX: real, k: nat, m: nat): seq<Enemy> {
    seq(|es|, j requires 0 <= j < |es| =>
      if k <= j < m && InReach(playerX, es[j]) then es[j].(health := es[j].health - AttackDamage) else es[j])
  }

  /** While nobody dies, the sweep from k to m takes 50 from every enemy it
      visits in reach and leaves the others as they are. */
  lemma {:induction false} SweepHits(es: seq<Enemy>, playerX: real, k: nat, m: nat, slain: seq<Enemy>)
    requires k <= m <= |es|
    requires forall j :: k <= j < m && InReach(playerX, es[j]) ==> es[j].health > AttackDamage
    ensures Sweep(es, playerX, k, |es|, slain) == Sweep(Blows(es, playerX, k, m), playerX, m, |es|, slain)
    decreases m - k
  {
    if k < m {
      if InReach(playerX, es[k]) {
        var hit := es[k := es[k].(health := es[k].health - AttackDamage)];
        SweepHits(hit, playerX, k + 1, m, slain);
        assert Blows(hit, playerX, k + 1, m) == Blows(es, playerX, k, m);
      } else {
        SweepHits(es, playerX, k + 1, m, slain);
        assert Blows(es, playerX, k + 1, m) == Blows(es, playerX, k, m);
      }
    } else {
      assert Blows(es, playerX, k, k) == es;
    }
  }

  /** An attack that kills nobody hits every enemy in reach exactly once. */
  lemma AttackHitsInReach(es: seq<Enemy>, playerX: real)
    requires forall j :: 0 <= j < |es| && InReach(playerX, es[j]) ==> es[j].health > AttackDamage
    ensures AttackSweep(es, playerX) == SweepResult(Blows(es, playerX, 0, |es|), [])
  {
    SweepHits(es, playerX, 0, |es|, []);
  }

  /** The sweep from index k never changes the enemies before k. */
  lemma {:induction false} SweepKeepsVisited(es: seq<Enemy>, playerX: real, k: nat, n: nat, slain: seq<Enemy>)
    ensures var r := Sweep(es, playerX, k, n, slain);
            forall j :: 0 <= j < k && j < |es| ==> j < |r.enemies| && r.enemies[j] == es[j]
    decreases n - k
  {
    if k < n && k < |es| && InReach(playerX, es[k]) {
      var hurt := es[k].(health := es[k].health - AttackDamage);
      if hurt.health <= 0 {
        var rest := es[..k] + es[k + 1..];
        assert Sweep(es, playerX, k, n, slain) == Sweep(rest, playerX, k + 1, n, slain + [hurt]);
        SweepKeepsVisited(rest, playerX, k + 1, n, slain + [hurt]);
        var r := Sweep(rest, playerX, k + 1, n, slain + [hurt]);
        forall j | 0 <= j < k
          ensures j < |r.enemies| && r.enemies[j] == es[j]
        {
          assert j < |rest| && rest[j] == es[j];
        }
      } else {
        assert Sweep(es, playerX, k, n, slain) == Sweep(es[k := hurt], playerX, k + 1, n, slain);
        SweepKeepsVisited(es[k := hurt], playerX, k + 1, n, slain);
        var r := Sweep(es[k := hurt], playerX, k + 1, n, slain);
        forall j | 0 <= j < k
          ensures j < |r.enemies| && r.enemies[j] == es[j]
        {
          assert es[k := hurt][j] == es[j];
        }
      }
    } else if k < n {
      SweepKeepsVisited(es, playerX, k + 1, n, slain);
    }
  }

  /** A visit that kills the enemy at index k splices it out and records it
      as the first of the slain. */
  lemma KillAt(es: seq<Enemy>, playerX: real, k: nat, n: nat)
    requires k < n && k < |es| && InReach(playerX, es[k]) && es[k].health <= AttackDamage
    ensures Sweep(es, playerX, k, n, [])
         == Sweep(es[..k] + es[k + 1..], playerX, k + 1, n, [es[k].(health := es[k].health - AttackDamage)])
  {
    assert [] + [es[k].(health := es[k].health - AttackDamage)] == [es[k].(health := es[k].health - AttackDamage)];
  }

  /**
   * The kill direction: the first enemy in reach that a blow brings to 0 or
   * below is the first enemy slain, and the enemies before it end hit once
   * when in reach and untouched otherwise.
   */
  lemma FirstKill(es: seq<Enemy>, playerX: real, m: nat)
    requires m < |es| && InReach(playerX, es[m]) && es[m].health <= AttackDamage
    requires forall j :: 0 <= j < m && InReach(playerX, es[j]) ==> es[j].health > AttackDamage
    ensures |AttackSweep(es, playerX).slain| >= 1
    ensures AttackSweep(es, playerX).slain[0] == es[m].(health := es[m].health - AttackDamage)
    ensures m <= |AttackSweep(es, playerX).enemies|
    ensures forall j :: 0 <= j < m ==> AttackSweep(es, playerX).enemies[j] == Blows(es, playerX, 0, m)[j]
  {
    SweepHits(es, playerX, 0, m, []);
    var b := Blows(es, playerX, 0, m);
    assert |b| == |es| && b[m] == es[m];
    var hurt := b[m].(health := b[m].health - AttackDamage);
    var rest := b[..m] + b[m + 1..];
    KillAt(b, playerX, m, |es|);
    SweepKeepsVisited(rest, playerX, m + 1, |es|, [hurt]);
    var r := Sweep(rest, playerX, m + 1, |es|, [hurt]);
    assert AttackSweep(es, playerX) == r;
    assert m <= |r.enemies| by {
      if m > 0 { assert m - 1 < |rest| && rest[m - 1] == b[m - 1]; }
    }
    forall j | 0 <= j < m
      ensures AttackSweep(es, playerX).enemies[j] == Blows(es, playerX, 0, m)[j]
    {
      assert j < |rest| && rest[j] == b[j];
      assert r.enemies[j] == rest[j];
    }
    assert [hurt][..1] == [hurt];
  }

  /**
   * The splice-inside-forEach skip: with two 50-health enemies side by side in
   * reach, the first dies and the second slides into the visited slot, so it
   * keeps its 50 health although it stood in reach.
   */
  lemma NeighbourOfKillIsSkipped(a: Enemy, b: Enemy, playerX: real)
    requires a.health == 50 && b.health == 50
    requires InReach(playerX, a) && InReach(playerX, b)
    ensures AttackSweep([a, b], playerX) == SweepResult([b], [a.(health := 0)])
  {
    var hurt := a.(health := 0);
    assert [a, b][..0] + [a, b][1..] == [b];
    calc {
      AttackSweep([a, b], playerX);
      Sweep([b], playerX, 1, 2, [hurt]);
      Sweep([b], playerX, 2, 2, [hurt]);
    }
  }
}
