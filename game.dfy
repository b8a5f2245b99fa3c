/** The game's module-level state and the operations that change it, one
    method per function of the game script. The canvas size is given to
    `Reset` (the window it is measured from is outside the model), the
    wall clock to `Frame`, every random draw to the method that makes it. */
module GameState {
  import opened Geometry
  import opened Levels
  import opened Entities
  import opened Rules
  import opened Sweeps

  /** Points for finishing a level. */
  const LevelBonus: int := 6
  /** Longest frame step, in milliseconds. */
  const MaxFrameStep: int := 60
  /** How much each fallback spawn shortens the spawn interval. */
  const SpawnRamp: real := 0.18

  datatype Touch = NoTouch | TouchAt(x: real)

  /** Input state as the event listeners leave it: the current touch point,
      if any, and which arrow keys are held. */
  datatype Input = Input(touch: Touch, left: bool, right: bool)

  /** The draws of one fallback spawn: the new obstacle's nine draws, the
      power-up chance, the power-up's horizontal position and its kind. */
  datatype SpawnDraws = SpawnDraws(enemy: EnemyDraws, chance: real, px: real, kind: real)

  predicate SpawnDrawsOk(d: SpawnDraws) {
    EnemyDrawsOk(d.enemy) && Unit(d.chance) && Unit(d.px) && Unit(d.kind)
  }

  /** `Math.min(60, now - lastFrame)`: the time since the previous frame,
      capped at 60 ms. */
  function FrameStep(now: int, last: int): (dt: int)
    ensures dt <= MaxFrameStep
    ensures now - last <= MaxFrameStep ==> dt == now - last
    ensures now - last > MaxFrameStep ==> dt == MaxFrameStep
  {
    if now - last < MaxFrameStep then now - last else MaxFrameStep
  }

  /** Player velocity after one frame of input, before the top-speed clamp:
      a touch pulls towards the touch point; otherwise a single held arrow
      accelerates, anything else applies friction and tiny speeds snap to 0. */
  function SteerVelocity(p: Player, input: Input): real {
    match input.touch
    case TouchAt(t) => p.vx + ((t - PlayerSize / 2.0) - p.x) * 0.048
    case NoTouch =>
      var v := if input.left && !input.right then p.vx - Accel * 1.2
               else if input.right && !input.left then p.vx + Accel * 1.2
               else p.vx * Friction;
      if -RestSpeed < v < RestSpeed then 0.0 else v
  }

  /** Clamp a velocity to [-14, 14]. */
  function ClampSpeed(v: real): (r: real)
    ensures -MaxSpeed <= r <= MaxSpeed
    ensures -MaxSpeed <= v <= MaxSpeed ==> r == v
    ensures v > MaxSpeed ==> r == MaxSpeed
    ensures v < -MaxSpeed ==> r == -MaxSpeed
  {
    if v > MaxSpeed then MaxSpeed else if v < -MaxSpeed then -MaxSpeed else v
  }

  /** The body of the obstacle loop in `update(dt)` up to the collision
      test: ease towards the lane target, advance the phase, accelerate,
      fall, maybe add a trail dot, and age the trail. */
  method StepEnemy(e0: Enemy, d: FrameDraw, dt: real, width: int) returns (e: Enemy)
    ensures e == MoveEnemy(e0, d, dt, width)
  {
    var lanes := ComputeLanes(width);
    var targetX := KeepInside(lanes[e0.lane] - e0.w / 2.0, e0.w, width);
    assert targetX == LaneTarget(e0, width);
    var x := e0.x + (targetX - e0.x) * 0.1;
    var phase := e0.phase + e0.oscSpeed * dt;
    var vOsc := Wobble(d.sine, e0.oscAmp);
    var speed := e0.speed + e0.ay * (dt / 16.0);
    var y := e0.y + speed * (dt / 16.0) + vOsc;
    e := e0.(x := x, phase := phase, speed := speed, y := y);
    assert e == Glide(e0, d.sine, dt, width);
    if d.trailRoll < 0.68 {
      e := AddTrail(e);
    }
    assert e == if d.trailRoll < 0.68 then AddTrail(Glide(e0, d.sine, dt, width)) else Glide(e0, d.sine, dt, width);
    var aged := AgeTrail(e.trail, dt);
    e := e.(trail := aged);
  }

  /** The obstacle-building part of `spawnEnemy`: pick the lane, the size,
      the clamped column, the base speed, the type and the oscillation from
      the draws, in the order the script draws them. */
  method MakeEnemy(d: EnemyDraws, width: int, level: LevelIndex) returns (e: Enemy)
    requires EnemyDrawsOk(d)
    ensures e == NewEnemy(d, width, level)
  {
    var lanes := ComputeLanes(width);
    var laneIdx := LaneOf(d.lane);
    var laneX := lanes[laneIdx];
    var eW := 20.0 + d.size * 36.0;
    var x := KeepInside(laneX - eW / 2.0, eW, width);
    var base := 2.4 + d.base * 2.6;
    var kind := KindOf(d.kind);
    var phase := d.phase * Pi * 2.0;
    var oscAmp := 10.0 + d.amp * 18.0;
    var oscSpeed := 0.006 + d.osc * 0.01;
    e := Enemy(laneIdx, x, -eW - d.drop * 120.0, eW, eW, base * Level(level).speedMul,
               0.01 + d.ay * 0.03, kind, [], phase, oscAmp, oscSpeed);
  }

  /** The player's starting column: centred on the canvas, rounded half up
      to a whole pixel, and inside the edge gaps. */
  function StartX(width: int): (x: real)
    ensures width >= 300 ==> EdgeGap <= x <= PlayerMaxX(width)
    ensures -0.5 < x - (width as real / 2.0 - PlayerSize / 2.0) <= 0.5
  {
    RoundHalfUp(width as real / 2.0 - PlayerSize / 2.0) as real
  }

  /** Where the fallback spawner asks for a power-up: `px` of the way
      across the band from 20 to width - 60. */
  function PowerupColumn(px: real, width: int): real {
    px * (width as real - 80.0) + 20.0
  }

  /** One pass of the obstacle loop of `update(dt)` at index `i`: move the
      obstacle, then splice it out on a hit while the round runs and is not
      paused (applying the hit), or once it is 120 below the canvas (one
      point), else leave it moved in place. The sweep still to do over the
      entries before `i`, followed by what is left from `i` on, is what the
      sweep over the entries up to `i` would have left. */
  method SweepStep(pool: seq<Enemy>, i: nat, draws: seq<FrameDraw>, env: Env, s: Session)
      returns (next: seq<Enemy>, s1: Session)
    requires i < |pool| && i < |draws|
    ensures |next| >= i && next[..i] == pool[..i]
    ensures EnemySweep(pool[..i + 1], draws, env, s).enemies + pool[i + 1..] ==
            EnemySweep(pool[..i], draws, env, s1).enemies + next[i..]
    ensures EnemySweep(pool[..i + 1], draws, env, s).session == EnemySweep(pool[..i], draws, env, s1).session
  {
    var e := StepEnemy(pool[i], draws[i], env.dt, env.width);
    assert pool[..i + 1][..i] == pool[..i] && pool[..i + 1][i] == pool[i];
    EnemySweepLast(pool[..i + 1], draws, env, s);
    if Hits(env, e) && s.running && !env.paused {
      s1 := HitEffect(s);
      next := pool[..i] + pool[i + 1..];
      SplitAt(pool[..i], pool[i + 1..]);
    } else if e.y > env.height as real + 120.0 {
      next := pool[..i] + pool[i + 1..];
      s1 := s.(score := s.score + 1);
      SplitAt(pool[..i], pool[i + 1..]);
    } else {
      next := pool[..i] + ([e] + pool[i + 1..]);
      s1 := s;
      SplitAt(pool[..i], [e] + pool[i + 1..]);
    }
  }

  /** Cutting a concatenation where its first part ends gives the parts back. */
  lemma SplitAt(a: seq<Enemy>, b: seq<Enemy>)
    ensures (a + b)[..|a|] == a && (a + b)[|a|..] == b
  {
  }

  /** The obstacle loop of `update(dt)` on the pool and the counters: the
      pool is walked from its last entry down, each obstacle is moved, and
      one that hits the player while the round runs and is not paused, or
      that has fallen 120 below the canvas, is spliced out where it is met. */
  method SweepEnemies(es: seq<Enemy>, draws: seq<FrameDraw>, env: Env, s: Session) returns (r: Outcome)
    requires |draws| >= |es|
    ensures r == EnemySweep(es, draws, env, s)
  {
    ghost var goal := EnemySweep(es, draws, env, s);
    var pool, session := es, s;
    var i := |pool| - 1;
    assert pool[..i + 1] == pool;
    while i >= 0
      invariant -1 <= i < |pool| && i < |es|
      invariant EnemySweep(pool[..i + 1], draws, env, session).enemies + pool[i + 1..] == goal.enemies
      invariant EnemySweep(pool[..i + 1], draws, env, session).session == goal.session
    {
      pool, session := SweepStep(pool, i, draws, env, session);
      i := i - 1;
    }
    assert pool[..0] == [];
    r := Outcome(pool, session);
  }

  class Game {
    var width: int
    var height: int
    var player: Player
    var enemies: seq<Enemy>
    var powerups: seq<PowerUp>
    var particles: seq<Particle>
    var score: int
    var lives: int
    var running: bool
    var paused: bool
    var levelIndex: LevelIndex
    var levelTimer: real
    var spawnInterval: real
    var fallbackTimer: real
    var lastFrame: int

    /** The invariant every operation keeps: the session counters within
        their bounds, at most 18 obstacles each inside the edge gaps, at
        most one power-up, a spawn interval not below 260, and the player
        inside the edge gaps at no more than top speed. */
    ghost predicate Valid()
      reads this
    {
      width >= 300 &&
      SessionOk(SessionView()) &&
      |enemies| <= MaxEnemies && (forall e <- enemies :: EnemyOk(e, width)) &&
      |powerups| <= MaxPowerups &&
      spawnInterval >= MinSpawnInterval &&
      EdgeGap <= player.x <= PlayerMaxX(width) && -MaxSpeed <= player.vx <= MaxSpeed
    }

    /** Score, lives, shield charges and the running flag. */
    ghost function SessionView(): Session
      reads this
    {
      Session(score, lives, player.shield, running)
    }

    /** What the sweeps of one frame read without changing. */
    ghost function FrameEnv(dt: real): Env
      reads this
    {
      Env(dt, player.x, player.y, width, height, paused)
    }

    /** Module start-up: the initial values of the game state, then
        `resetGame()`. `now` is the clock reading taken at load. */
    constructor (width: int, height: int, now: int)
      requires width >= 300
      ensures Valid()
      ensures this.width == width && this.height == height && lastFrame == now
      ensures player == Player(StartX(width), height as real - PlayerSize - 18.0, 0.0, 0)
      ensures enemies == [] && powerups == [] && particles == []
      ensures SessionView() == Session(0, 3, 0, true) && !paused
      ensures levelIndex == 0 && levelTimer == LevelTime(0) && spawnInterval == Level(0).spawnInterval
      ensures fallbackTimer == 0.0
    {
      this.width, this.height := width, height;
      player := Player(0.0, 0.0, 0.0, 0);
      enemies, powerups, particles := [], [], [];
      score, lives, running, paused, levelIndex, levelTimer := 0, 3, true, false, 0, 0.0;
      spawnInterval, fallbackTimer, lastFrame := 720.0, 0.0, now;
      new;
      Reset(width, height);
    }

    /** `setLevel(i)`: select level min(i, 4) and re-arm its timer and spawn
        interval. */
    method SetLevel(i: nat)
      modifies this`levelIndex, this`spawnInterval, this`levelTimer
      ensures levelIndex == ClampLevel(i)
      ensures levelTimer == LevelTime(levelIndex) && spawnInterval == Level(levelIndex).spawnInterval
      ensures spawnInterval >= MinSpawnInterval
    {
      levelIndex := ClampLevel(i);
      spawnInterval := Level(levelIndex).spawnInterval;
      levelTimer := LevelTime(levelIndex);
    }

    /** The first half of `resetGame()`: take the canvas size and put the
        player, at rest and without shield, centred above the bottom edge. */
    method PlacePlayer(width: int, height: int)
      modifies this`width, this`height, this`player
      ensures this.width == width && this.height == height
      ensures player == Player(StartX(width), height as real - PlayerSize - 18.0, 0.0, 0)
    {
      this.width, this.height := width, height;
      player := Player(StartX(width), height as real - PlayerSize - 18.0, 0.0, 0);
    }

    /** The second half of `resetGame()`'s state changes: empty pools, score
        0, three lives, running and not paused. */
    method ClearRound()
      modifies this`enemies, this`powerups, this`particles, this`score, this`lives, this`running, this`paused
      ensures enemies == [] && powerups == [] && particles == []
      ensures score == 0 && lives == 3 && running && !paused
    {
      enemies, powerups, particles := [], [], [];
      score, lives := 0, 3;
      running, paused := true, false;
    }

    /** `resetGame()` on a canvas of the given size. */
    method Reset(width: int, height: int)
      requires width >= 300
      modifies this
      ensures Valid()
      ensures this.width == width && this.height == height
      ensures player == Player(StartX(width), height as real - PlayerSize - 18.0, 0.0, 0)
      ensures enemies == [] && powerups == [] && particles == []
      ensures SessionView() == Session(0, 3, 0, true) && !paused
      ensures levelIndex == 0 && levelTimer == LevelTime(0) && spawnInterval == Level(0).spawnInterval
      ensures fallbackTimer == 0.0 && lastFrame == old(lastFrame)
    {
      PlacePlayer(width, height);
      ClearRound();
      SetLevel(0);
      spawnInterval := Level(levelIndex).spawnInterval;
      fallbackTimer := 0.0;
    }

    /** The pause button and the space bar. */
    method TogglePause()
      requires Valid()
      modifies this`paused
      ensures Valid() && paused == !old(paused)
    {
      paused := !paused;
    }

    /** `spawnEnemy`: append a new obstacle unless 18 are live. */
    method SpawnEnemy(d: EnemyDraws)
      requires Valid() && EnemyDrawsOk(d)
      modifies this`enemies
      ensures Valid()
      ensures enemies == EnemiesAfterSpawn(old(enemies), d, width, levelIndex)
    {
      if |enemies| >= MaxEnemies {
        return;
      }
      var e := MakeEnemy(d, width, levelIndex);
      EnemiesAfterSpawnRule(enemies, d, width, levelIndex);
      enemies := enemies + [e];
    }

    /** `spawnPowerupAt(x, y)`: append a power-up of the drawn kind unless
        one is already live or a live one's centre is closer than 120. */
    method SpawnPowerupAt(x: real, y: real, r: real)
      requires Valid() && Unit(r)
      modifies this`powerups
      ensures Valid()
      ensures powerups == PowerupsAfterSpawn(old(powerups), x, y, r, width)
    {
      if |powerups| >= MaxPowerups {
        return;
      }
      var near := TooClose(powerups, x, y);
      if near {
        return;
      }
      var kind := PowerupKindOf(r);
      var size := PowerupSize(width) as real;
      powerups := powerups + [PowerUp(KeepInside(x, size, width), y, size, size, kind, 1.8)];
    }

    /** `fallbackStep(dt)`: once more than the spawn interval has built up,
        restart the count, spawn an obstacle, with chance 6% a power-up
        somewhere between 20 and width - 60, and shorten the interval by
        0.18 down to 260. */
    method FallbackStep(dt: real, d: SpawnDraws)
      requires Valid() && SpawnDrawsOk(d)
      modifies this`fallbackTimer, this`enemies, this`powerups, this`spawnInterval
      ensures Valid()
      ensures old(fallbackTimer) + dt > old(spawnInterval) ==>
        fallbackTimer == 0.0 &&
        enemies == EnemiesAfterSpawn(old(enemies), d.enemy, width, levelIndex) &&
        powerups == (if d.chance < PowerupChance
                     then PowerupsAfterSpawn(old(powerups), PowerupColumn(d.px, width), -24.0, d.kind, width)
                     else old(powerups)) &&
        spawnInterval == Max(MinSpawnInterval, old(spawnInterval) - SpawnRamp)
      ensures old(fallbackTimer) + dt <= old(spawnInterval) ==>
        fallbackTimer == old(fallbackTimer) + dt &&
        enemies == old(enemies) && powerups == old(powerups) && spawnInterval == old(spawnInterval)
      ensures MinSpawnInterval <= spawnInterval <= old(spawnInterval)
    {
      fallbackTimer := fallbackTimer + dt;
      if fallbackTimer > spawnInterval {
        fallbackTimer := 0.0;
        SpawnEnemy(d.enemy);
        if d.chance < PowerupChance {
          SpawnPowerupAt(PowerupColumn(d.px, width), -24.0, d.kind);
        }
        spawnInterval := Max(MinSpawnInterval, spawnInterval - SpawnRamp);
      }
    }

    /** `onPlayerHit`: a shield charge absorbs the hit, otherwise a life is
        lost and losing the last one stops the round. */
    method OnPlayerHit()
      modifies this`player, this`lives, this`running
      ensures SessionView() == HitEffect(old(SessionView()))
      ensures player == old(player).(shield := player.shield)
    {
      if player.shield > 0 {
        player := player.(shield := player.shield - 1);
        return;
      }
      lives := lives - 1;
      if lives <= 0 {
        running := false;
      }
    }

    /** The `forEach` of the slow power-up: every live obstacle's speed
        times 0.64, in place. */
    method SlowEnemies()
      modifies this`enemies
      ensures enemies == Slowed(old(enemies))
    {
      var k := 0;
      while k < |enemies|
        invariant 0 <= k <= |enemies| == |old(enemies)|
        invariant forall j :: 0 <= j < k ==> enemies[j] == old(enemies)[j].(speed := old(enemies)[j].speed * SlowFactor)
        invariant forall j :: k <= j < |enemies| ==> enemies[j] == old(enemies)[j]
      {
        enemies := enemies[k := enemies[k].(speed := enemies[k].speed * SlowFactor)];
        k := k + 1;
      }
    }

    /** `applyPowerup(t)`. */
    method ApplyPowerup(kind: PowerupKind)
      modifies this`enemies, this`player, this`lives, this`score
      ensures Outcome(enemies, SessionView()) == PowerupEffect(kind, old(enemies), old(SessionView()))
      ensures player == old(player).(shield := player.shield)
    {
      if kind == Shield {
        player := player.(shield := if player.shield + 1 <= ShieldCap then player.shield + 1 else ShieldCap);
      } else if kind == Slow {
        SlowEnemies();
      } else if kind == Life {
        lives := if lives + 1 <= LivesCap then lives + 1 else LivesCap;
      } else if kind == Boom {
        enemies := KeepBig(enemies);
      } else if kind == Bonus {
        score := score + BonusPoints;
      }
    }

    /** The obstacle part of `update(dt)`. Obstacle i uses `draws[i]`. */
    method UpdateEnemies(dt: real, draws: seq<FrameDraw>)
      requires Valid() && |draws| >= |enemies|
      modifies this`enemies, this`player, this`lives, this`running, this`score
      ensures Valid()
      ensures Outcome(enemies, SessionView()) == EnemySweep(old(enemies), draws, old(FrameEnv(dt)), old(SessionView()))
      ensures player == old(player).(shield := player.shield)
      ensures score >= old(score) && (running ==> old(running)) && |enemies| <= |old(enemies)|
    {
      var env := Env(dt, player.x, player.y, width, height, paused);
      var o := SweepEnemies(enemies, draws, env, Session(score, lives, player.shield, running));
      EnemySweepConserves(enemies, draws, env, SessionView());
      EnemySweepSessionOk(enemies, draws, env, SessionView());
      EnemySweepShrinks(enemies, draws, env, SessionView());
      EnemySweepKeepsShape(enemies, draws, env, SessionView());
      enemies := o.enemies;
      score, lives, running := o.session.score, o.session.lives, o.session.running;
      player := player.(shield := o.session.shield);
    }

    /** The power-up loop of `update(dt)`, walked like the obstacles: each
        power-up falls, one the player touches is collected through
        `ApplyPowerup` and spliced out, one 80 below the canvas is spliced
        out. Collection does not look at the running flag. */
    method SweepPowerups(dt: real)
      modifies this`powerups, this`enemies, this`player, this`lives, this`score
      ensures PowerPass(powerups, enemies, SessionView()) == PowerupSweep(old(powerups), old(FrameEnv(dt)), old(enemies), old(SessionView()))
      ensures player == old(player).(shield := player.shield)
    {
      ghost var env := FrameEnv(dt);
      ghost var goal := PowerupSweep(powerups, env, enemies, SessionView());
      var ps := powerups;
      var i := |ps| - 1;
      assert ps[..i + 1] == ps;
      while i >= 0
        invariant -1 <= i < |ps| && i < |powerups|
        invariant ps[..i + 1] == powerups[..i + 1] && powerups == old(powerups)
        invariant FrameEnv(dt) == env && player == old(player).(shield := player.shield)
        invariant PowerupSweep(ps[..i + 1], env, enemies, SessionView()).powerups + ps[i + 1..] == goal.powerups
        invariant PowerupSweep(ps[..i + 1], env, enemies, SessionView()).enemies == goal.enemies
        invariant PowerupSweep(ps[..i + 1], env, enemies, SessionView()).session == goal.session
      {
        ghost var pre, es0, s0 := ps, enemies, SessionView();
        var p := ps[i];
        p := p.(y := p.y + p.dy * (dt / 16.0));
        assert p == MovePowerUp(pre[..i + 1][i], env.dt);
        ps := ps[i := p];
        assert pre[..i + 1][..i] == pre[..i];
        ghost var rest := PowerupSweep(pre[..i], env, es0, s0);
        ghost var o := PowerupEffect(p.kind, es0, s0);
        assert PowerupSweep(pre[..i + 1], env, es0, s0) ==
          if RectIntersect(PlayerBox(env.px, env.py), PowerupBox(p)) then PowerupSweep(pre[..i], env, o.enemies, o.session)
          else if p.y > env.height as real + 80.0 then rest
          else PowerPass(rest.powerups + [p], rest.enemies, rest.session);
        if RectIntersect(PlayerBox(player.x, player.y), PowerupBox(p)) {
          ApplyPowerup(p.kind);
          ps := ps[..i] + ps[i + 1..];
          assert ps[..i] == pre[..i] && ps[i..] == pre[i + 1..];
        } else if p.y > height as real + 80.0 {
          ps := ps[..i] + ps[i + 1..];
          assert ps[..i] == pre[..i] && ps[i..] == pre[i + 1..];
        } else {
          assert ps[..i] == pre[..i] && ps[i..] == [p] + pre[i + 1..];
        }
        i := i - 1;
      }
      assert ps[..0] == [];
      powerups := ps;
    }

    /** The power-up part of `update(dt)`: the sweep, which keeps the
        invariant and the running flag and never lowers the score. */
    method UpdatePowerups(dt: real)
      requires Valid()
      modifies this`powerups, this`enemies, this`player, this`lives, this`score
      ensures Valid()
      ensures PowerPass(powerups, enemies, SessionView()) == PowerupSweep(old(powerups), old(FrameEnv(dt)), old(enemies), old(SessionView()))
      ensures player == old(player).(shield := player.shield)
      ensures score >= old(score) && running == old(running) && |enemies| <= |old(enemies)|
    {
      ghost var env := FrameEnv(dt);
      SweepPowerups(dt);
      PowerupSweepKeeps(old(powerups), env, old(enemies), old(SessionView()));
    }

    /** The particle part of `update(dt)`, walked like the obstacles. */
    method UpdateParticles(dt: real)
      modifies this`particles
      ensures particles == ParticleSweep(old(particles), dt)
    {
      var ts := particles;
      var i := |ts| - 1;
      assert ts[..i + 1] == ts;
      while i >= 0
        invariant -1 <= i < |ts| && i < |particles|
        invariant ts[..i + 1] == particles[..i + 1]
        invariant ParticleSweep(ts[..i + 1], dt) + ts[i + 1..] == ParticleSweep(particles, dt)
      {
        ghost var pre := ts;
        var t := ts[i];
        t := t.(age := t.age + dt, x := t.x + t.vx * dt * 0.02, y := t.y + t.vy * dt * 0.02);
        assert t == MoveParticle(pre[i], dt);
        ts := ts[i := t];
        assert pre[..i + 1][..i] == pre[..i];
        if t.age > t.life {
          ts := ts[..i] + ts[i + 1..];
          assert ts[..i] == pre[..i] && ts[i..] == pre[i + 1..];
        } else {
          assert ts[..i] == pre[..i] && ts[i..] == [t] + pre[i + 1..];
        }
        i := i - 1;
      }
      assert ts[..0] == [];
      particles := ts;
    }

    /** The level-timer block of `update(dt)`: unless paused, a running
        timer counts down by dt; when it reaches zero the next level (the
        last one stays the last) is selected, re-arming the timer and the
        spawn interval, and six points are awarded. */
    method TickLevelTimer(dt: real)
      requires Valid()
      modifies this`levelTimer, this`levelIndex, this`spawnInterval, this`score
      ensures Valid()
      ensures !old(paused) && old(levelTimer) > 0.0 && old(levelTimer) - dt <= 0.0 ==>
        levelIndex == ClampLevel(old(levelIndex) + 1) &&
        levelTimer == LevelTime(levelIndex) && spawnInterval == Level(levelIndex).spawnInterval &&
        score == old(score) + LevelBonus
      ensures !(!old(paused) && old(levelTimer) > 0.0 && old(levelTimer) - dt <= 0.0) ==>
        levelIndex == old(levelIndex) && spawnInterval == old(spawnInterval) && score == old(score) &&
        levelTimer == (if !old(paused) && old(levelTimer) > 0.0 then old(levelTimer) - dt else old(levelTimer))
    {
      if !paused && levelTimer > 0.0 {
        levelTimer := levelTimer - dt;
        if levelTimer <= 0.0 {
          var next := ClampLevel(levelIndex + 1);
          SetLevel(next);
          score := score + LevelBonus;
        }
      }
    }

    /** `update(dt)`: the obstacle, power-up and particle sweeps, then the
        level timer. Obstacle i uses `draws[i]`. */
    method Update(dt: real, draws: seq<FrameDraw>)
      requires Valid() && |draws| >= |enemies|
      modifies this`enemies, this`powerups, this`particles, this`player, this`lives, this`running, this`score
      modifies this`levelTimer, this`levelIndex, this`spawnInterval
      ensures Valid()
      ensures score >= old(score) && (running ==> old(running)) && |enemies| <= |old(enemies)|
      ensures player == old(player).(shield := player.shield)
    {
      UpdateEnemies(dt, draws);
      UpdatePowerups(dt);
      UpdateParticles(dt);
      TickLevelTimer(dt);
    }

    /** `applyInput()`: steer, clamp to top speed, move, and stop at either
        edge gap. */
    method ApplyInput(input: Input)
      requires Valid()
      modifies this`player
      ensures Valid()
      ensures var v := ClampSpeed(SteerVelocity(old(player), input));
              var x := old(player.x) + v;
              player == old(player).(x := if x < EdgeGap then EdgeGap else if x > PlayerMaxX(width) then PlayerMaxX(width) else x,
                                     vx := if x < EdgeGap || x > PlayerMaxX(width) then 0.0 else v)
      ensures EdgeGap <= player.x <= PlayerMaxX(width) && -MaxSpeed <= player.vx <= MaxSpeed
    {
      var vx := SteerVelocity(player, input);
      if vx > MaxSpeed { vx := MaxSpeed; }
      if vx < -MaxSpeed { vx := -MaxSpeed; }
      var x := player.x + vx;
      if x < EdgeGap { x := EdgeGap; vx := 0.0; }
      if x > PlayerMaxX(width) { x := PlayerMaxX(width); vx := 0.0; }
      player := player.(x := x, vx := vx);
    }

    /** One animation frame of `loop()` at clock reading `now`: the step is
        `FrameStep`, the time since the previous frame capped at 60 ms, and
        it is what the fallback spawner's count grows by; input, the
        fallback spawner and the update run only while the round runs and
        is not paused. `draws` needs one entry per obstacle, plus one for an
        obstacle the spawner may add. */
    method Frame(now: int, input: Input, spawn: SpawnDraws, draws: seq<FrameDraw>)
      requires Valid() && SpawnDrawsOk(spawn) && |draws| > |enemies|
      modifies this`lastFrame, this`player, this`fallbackTimer, this`enemies, this`powerups, this`particles
      modifies this`lives, this`running, this`score, this`levelTimer, this`levelIndex, this`spawnInterval
      ensures Valid()
      ensures lastFrame == now && score >= old(score) && (running ==> old(running))
      ensures !(old(running) && !old(paused)) ==>
        player == old(player) && enemies == old(enemies) && powerups == old(powerups) &&
        particles == old(particles) && SessionView() == old(SessionView()) &&
        levelIndex == old(levelIndex) && levelTimer == old(levelTimer) &&
        spawnInterval == old(spawnInterval) && fallbackTimer == old(fallbackTimer)
      ensures old(running) && !old(paused) ==>
        var dt := FrameStep(now, old(lastFrame)) as real;
        (old(fallbackTimer) + dt > old(spawnInterval) ==> fallbackTimer == 0.0) &&
        (old(fallbackTimer) + dt <= old(spawnInterval) ==> fallbackTimer == old(fallbackTimer) + dt)
    {
      var dt := FrameStep(now, lastFrame);
      lastFrame := now;
      if running && !paused {
        ApplyInput(input);
        FallbackStep(dt as real, spawn);
        Update(dt as real, draws);
      }
    }
  }
}
