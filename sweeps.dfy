/** The per-frame sweeps of `update` as functions. Each pool is walked from
    its last entry to its first, and an entry is spliced out where it is
    met, so a sweep is defined by what happens to the LAST entry, followed
    by the sweep of the entries before it under the counters that entry
    left behind. */
module Sweeps {
  import opened Geometry
  import opened Entities
  import opened Rules

  /** Did the player's box meet the obstacle's? */
  predicate Hits(env: Env, e: Enemy) {
    RectIntersect(PlayerBox(env.px, env.py), EnemyBox(e))
  }

  /** The obstacle sweep: move the obstacle, then a collision while the
      round runs and is not paused removes it and applies the hit; else an
      obstacle 120 below the canvas bottom is removed for one point. Obstacle
      i uses the frame draws `draws[i]`. */
  function EnemySweep(es: seq<Enemy>, draws: seq<FrameDraw>, env: Env, s: Session): Outcome
    requires |draws| >= |es|
    decreases |es|
  {
    if es == [] then Outcome([], s)
    else
      var i := |es| - 1;
      var e := MoveEnemy(es[i], draws[i], env.dt, env.width);
      if Hits(env, e) && s.running && !env.paused then
        EnemySweep(es[..i], draws, env, HitEffect(s))
      else if e.y > env.height as real + 120.0 then
        EnemySweep(es[..i], draws, env, s.(score := s.score + 1))
      else
        var rest := EnemySweep(es[..i], draws, env, s);
        Outcome(rest.enemies + [e], rest.session)
  }

  /** One step of the obstacle sweep: what happens to the last obstacle. */
  lemma EnemySweepLast(es: seq<Enemy>, draws: seq<FrameDraw>, env: Env, s: Session)
    requires |draws| >= |es| > 0
    ensures var i := |es| - 1;
      var e := MoveEnemy(es[i], draws[i], env.dt, env.width);
      EnemySweep(es, draws, env, s) ==
        if Hits(env, e) && s.running && !env.paused then EnemySweep(es[..i], draws, env, HitEffect(s))
        else if e.y > env.height as real + 120.0 then EnemySweep(es[..i], draws, env, s.(score := s.score + 1))
        else Outcome(EnemySweep(es[..i], draws, env, s).enemies + [e], EnemySweep(es[..i], draws, env, s).session)
  {
  }

  /** Every obstacle is accounted for exactly once: it is still in the
      pool, it was dodged (one point each), or it hit the player (one shield
      charge or one life each). Score, shield and lives only move in those
      directions, and once the round is over no hit is processed. */
  lemma {:induction false} EnemySweepConserves(es: seq<Enemy>, draws: seq<FrameDraw>, env: Env, s: Session)
    requires |draws| >= |es|
    ensures var r := EnemySweep(es, draws, env, s).session;
      |es| == |EnemySweep(es, draws, env, s).enemies| + (r.score - s.score)
              + (s.shield - r.shield) + (s.lives - r.lives) &&
      r.score >= s.score && r.shield <= s.shield && r.lives <= s.lives &&
      (r.running ==> s.running) &&
      (!s.running ==> r.lives == s.lives && r.shield == s.shield && !r.running)
    decreases |es|
  {
    if es != [] {
      var i := |es| - 1;
      var e := MoveEnemy(es[i], draws[i], env.dt, env.width);
      if Hits(env, e) && s.running && !env.paused {
        HitEffectRule(s);
        EnemySweepConserves(es[..i], draws, env, HitEffect(s));
      } else if e.y > env.height as real + 120.0 {
        EnemySweepConserves(es[..i], draws, env, s.(score := s.score + 1));
      } else {
        EnemySweepConserves(es[..i], draws, env, s);
      }
    }
  }

  /** The sweep keeps the session invariant: shield in [0, 3], lives in
      [0, 5], never negative, and a running round has a life left. */
  lemma {:induction false} EnemySweepSessionOk(es: seq<Enemy>, draws: seq<FrameDraw>, env: Env, s: Session)
    requires |draws| >= |es| && SessionOk(s)
    ensures SessionOk(EnemySweep(es, draws, env, s).session)
    decreases |es|
  {
    if es != [] {
      var i := |es| - 1;
      var e := MoveEnemy(es[i], draws[i], env.dt, env.width);
      if Hits(env, e) && s.running && !env.paused {
        HitEffectRule(s);
        EnemySweepSessionOk(es[..i], draws, env, HitEffect(s));
      } else if e.y > env.height as real + 120.0 {
        EnemySweepSessionOk(es[..i], draws, env, s.(score := s.score + 1));
      } else {
        EnemySweepSessionOk(es[..i], draws, env, s);
      }
    }
  }

  /** The sweep never grows the pool. */
  lemma {:induction false} EnemySweepShrinks(es: seq<Enemy>, draws: seq<FrameDraw>, env: Env, s: Session)
    requires |draws| >= |es|
    ensures |EnemySweep(es, draws, env, s).enemies| <= |es|
    decreases |es|
  {
    if es != [] {
      var i := |es| - 1;
      EnemySweepShrinks(es[..i], draws, env, s);
      EnemySweepShrinks(es[..i], draws, env, HitEffect(s));
      EnemySweepShrinks(es[..i], draws, env, s.(score := s.score + 1));
    }
  }

  /** Every surviving obstacle still lies inside the edge gaps, with a
      trail of at most 14 dots. */
  lemma {:induction false} EnemySweepKeepsShape(es: seq<Enemy>, draws: seq<FrameDraw>, env: Env, s: Session)
    requires |draws| >= |es| && env.width >= 300
    requires forall e <- es :: EnemyOk(e, env.width)
    ensures forall e <- EnemySweep(es, draws, env, s).enemies :: EnemyOk(e, env.width)
    decreases |es|
  {
    if es != [] {
      var i := |es| - 1;
      var e := MoveEnemy(es[i], draws[i], env.dt, env.width);
      assert es[i] in es;
      MoveEnemyKeepsShape(es[i], draws[i], env.dt, env.width);
      assert forall x <- es[..i] :: EnemyOk(x, env.width) by {
        forall x <- es[..i] ensures x in es { }
      }
      if Hits(env, e) && s.running && !env.paused {
        EnemySweepKeepsShape(es[..i], draws, env, HitEffect(s));
      } else if e.y > env.height as real + 120.0 {
        EnemySweepKeepsShape(es[..i], draws, env, s.(score := s.score + 1));
      } else {
        var rest := EnemySweep(es[..i], draws, env, s);
        assert EnemySweep(es, draws, env, s).enemies == rest.enemies + [e];
        EnemySweepKeepsShape(es[..i], draws, env, s);
      }
    }
  }

  /** The obstacle pool, the counters and the surviving power-ups after a
      power-up sweep. */
  datatype PowerPass = PowerPass(powerups: seq<PowerUp>, enemies: seq<Enemy>, session: Session)

  /** The power-up sweep: move the power-up down; one the player touches is
      applied and removed (whether or not the round still runs), one more
      than 80 below the canvas bottom is removed. */
  function PowerupSweep(ps: seq<PowerUp>, env: Env, es: seq<Enemy>, s: Session): PowerPass
    decreases |ps|
  {
    if ps == [] then PowerPass([], es, s)
    else
      var i := |ps| - 1;
      var p := MovePowerUp(ps[i], env.dt);
      if RectIntersect(PlayerBox(env.px, env.py), PowerupBox(p)) then
        var o := PowerupEffect(p.kind, es, s);
        PowerupSweep(ps[..i], env, o.enemies, o.session)
      else if p.y > env.height as real + 80.0 then
        PowerupSweep(ps[..i], env, es, s)
      else
        var rest := PowerupSweep(ps[..i], env, es, s);
        PowerPass(rest.powerups + [p], rest.enemies, rest.session)
  }

  /** The power-up sweep keeps the session invariant, never lowers the score
      nor ends or restarts the round, never grows either pool, and keeps
      every surviving obstacle inside the edge gaps. */
  lemma {:induction false} PowerupSweepKeeps(ps: seq<PowerUp>, env: Env, es: seq<Enemy>, s: Session)
    requires SessionOk(s)
    requires forall e <- es :: EnemyOk(e, env.width)
    ensures var r := PowerupSweep(ps, env, es, s);
      SessionOk(r.session) && r.session.score >= s.score && r.session.running == s.running &&
      |r.powerups| <= |ps| && |r.enemies| <= |es| &&
      (forall e <- r.enemies :: EnemyOk(e, env.width))
    decreases |ps|
  {
    if ps != [] {
      var i := |ps| - 1;
      var p := MovePowerUp(ps[i], env.dt);
      if RectIntersect(PlayerBox(env.px, env.py), PowerupBox(p)) {
        var o := PowerupEffect(p.kind, es, s);
        PowerupEffectRule(p.kind, es, s);
        forall e <- o.enemies ensures EnemyOk(e, env.width) {
          if p.kind == Slow {
            var k :| 0 <= k < |es| && o.enemies[k] == e;
            assert es[k] in es;
          }
        }
        PowerupSweepKeeps(ps[..i], env, o.enemies, o.session);
      } else {
        PowerupSweepKeeps(ps[..i], env, es, s);
      }
    }
  }

  /** The particle sweep: age and drift each particle and drop those whose
      age has passed their lifetime. */
  function ParticleSweep(ts: seq<Particle>, dt: real): seq<Particle>
    decreases |ts|
  {
    if ts == [] then []
    else
      var i := |ts| - 1;
      var t := MoveParticle(ts[i], dt);
      if t.age > t.life then ParticleSweep(ts[..i], dt)
      else ParticleSweep(ts[..i], dt) + [t]
  }

  /** The particles that survive are the moved particles still within
      their lifetime: none past it remains, none within it is lost, and
      nothing else appears. */
  lemma {:induction false} ParticleSweepSurvivors(ts: seq<Particle>, dt: real)
    ensures |ParticleSweep(ts, dt)| <= |ts|
    ensures forall t <- ParticleSweep(ts, dt) :: t.age <= t.life
    ensures forall t <- ParticleSweep(ts, dt) :: exists k :: 0 <= k < |ts| && t == MoveParticle(ts[k], dt)
    ensures forall k :: 0 <= k < |ts| && MoveParticle(ts[k], dt).age <= ts[k].life ==>
      MoveParticle(ts[k], dt) in ParticleSweep(ts, dt)
    decreases |ts|
  {
    if ts != [] {
      var n := |ts| - 1;
      ParticleSweepSurvivors(ts[..n], dt);
      forall k | 0 <= k < n
        ensures ts[..n][k] == ts[k]
      {
      }
      forall t <- ParticleSweep(ts, dt)
        ensures exists k :: 0 <= k < |ts| && t == MoveParticle(ts[k], dt)
      {
        if t in ParticleSweep(ts[..n], dt) {
          var k :| 0 <= k < n && t == MoveParticle(ts[..n][k], dt);
          assert t == MoveParticle(ts[k], dt);
        } else {
          assert t == MoveParticle(ts[n], dt);
        }
      }
    }
  }

  /** Reference reading of the particle sweep, front to back: the moved
      particles still within their lifetime, in their original order. */
  function LiveMoved(ts: seq<Particle>, dt: real): seq<Particle>
    decreases |ts|
  {
    if ts == [] then []
    else
      var t := MoveParticle(ts[0], dt);
      (if t.age > t.life then [] else [t]) + LiveMoved(ts[1..], dt)
  }

  /** The front-to-back reading handles a particle added at the end last. */
  lemma {:induction false} LiveMovedSnoc(ts: seq<Particle>, x: Particle, dt: real)
    ensures var t := MoveParticle(x, dt);
      LiveMoved(ts + [x], dt) == LiveMoved(ts, dt) + (if t.age > t.life then [] else [t])
    decreases |ts|
  {
    if ts == [] {
      assert [x][1..] == [];
    } else {
      var t0 := MoveParticle(ts[0], dt);
      var head := if t0.age > t0.life then [] else [t0];
      assert (ts + [x])[0] == ts[0] && (ts + [x])[1..] == ts[1..] + [x];
      assert LiveMoved(ts + [x], dt) == head + LiveMoved(ts[1..] + [x], dt);
      assert LiveMoved(ts, dt) == head + LiveMoved(ts[1..], dt);
      LiveMovedSnoc(ts[1..], x, dt);
    }
  }

  /** Walking the pool from its end and splicing keeps the survivors in
      their original order and drops nothing else: the sweep equals the
      front-to-back filter of the moved particles. */
  lemma {:induction false} ParticleSweepInOrder(ts: seq<Particle>, dt: real)
    ensures ParticleSweep(ts, dt) == LiveMoved(ts, dt)
    decreases |ts|
  {
    if ts != [] {
      var n := |ts| - 1;
      assert ts == ts[..n] + [ts[n]];
      ParticleSweepInOrder(ts[..n], dt);
      LiveMovedSnoc(ts[..n], ts[n], dt);
    }
  }
}
