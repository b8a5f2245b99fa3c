/** The entities of the simulation as values: the player, obstacles
    ("enemies") with their trails, power-ups and particles, together with
    how each one is created and how it moves during one frame. The random
    draws are explicit arguments; those that decide a value are required to
    lie in [0, 1). */
module Entities {
  import opened Geometry
  import opened Levels

  const MaxEnemies: nat := 18
  const MaxPowerups: nat := 1
  const MinPowerupDist: real := 120.0
  const PowerupChance: real := 0.06
  const TrailFade: real := 360.0
  const TrailCap: nat := 14
  /** Pi to the 16 significant digits that JavaScript prints for Math.PI;
      the double itself differs from this decimal in its later digits. */
  const Pi: real := 3.141592653589793

  // ----- player -------------------------------------------------------

  const PlayerSize: real := 44.0
  const MaxSpeed: real := 14.0
  const Accel: real := 1.6
  const Friction: real := 0.84
  /** Horizontal speeds below this are snapped to rest. */
  const RestSpeed: real := 0.02

  /** The player's mutable part; its size, top speed, acceleration and
      friction are the constants above. */
  datatype Player = Player(x: real, y: real, vx: real, shield: int)

  function PlayerBox(x: real, y: real): Rect {
    Rect(x, y, PlayerSize, PlayerSize)
  }

  /** Rightmost left edge the player may take on a canvas `width` wide. */
  function PlayerMaxX(width: int): real {
    width as real - PlayerSize - EdgeGap
  }

  // ----- obstacles ----------------------------------------------------

  datatype EnemyKind = Red | Big | Zig | Home

  /** One remembered centre of an obstacle; its colour is left to rendering. */
  datatype TrailDot = TrailDot(x: real, y: real, age: real, life: real, size: int)

  datatype Enemy = Enemy(
    lane: LaneIndex, x: real, y: real, w: real, h: real,
    speed: real, ay: real, kind: EnemyKind, trail: seq<TrailDot>,
    phase: real, oscAmp: real, oscSpeed: real)

  function EnemyBox(e: Enemy): Rect {
    Rect(e.x, e.y, e.w, e.h)
  }

  predicate Unit(r: real) {
    0.0 <= r < 1.0
  }

  /** The nine random numbers `spawnEnemy` draws, in the order it draws them. */
  datatype EnemyDraws = EnemyDraws(
    lane: real, size: real, base: real, kind: real, phase: real,
    amp: real, osc: real, drop: real, ay: real)

  predicate EnemyDrawsOk(d: EnemyDraws) {
    Unit(d.lane) && Unit(d.size) && Unit(d.base) && Unit(d.kind) && Unit(d.phase) &&
    Unit(d.amp) && Unit(d.osc) && Unit(d.drop) && Unit(d.ay)
  }

  /** Obstacle type from one draw: 14% big, 20% zigzag, 18% homing, rest red. */
  function KindOf(r: real): (k: EnemyKind)
    ensures k == Big <==> r < 0.14
    ensures k == Zig <==> 0.14 <= r < 0.34
    ensures k == Home <==> 0.34 <= r < 0.52
    ensures k == Red <==> 0.52 <= r
  {
    if r < 0.14 then Big
    else if r < 0.34 then Zig
    else if r < 0.52 then Home
    else Red
  }

  /** `Math.floor(r * LANES)`: a uniformly chosen lane. */
  function LaneOf(r: real): (i: LaneIndex)
    requires Unit(r)
    ensures i as real <= r * 4.0 < i as real + 1.0
  {
    var n := (r * 4.0).Floor;
    assert n as real <= r * 4.0 < n as real + 1.0;
    n
  }

  /** What the live-obstacle invariant asks of one obstacle on a canvas
      `width` wide: a square 20 to 56 pixels wide, its left edge inside the
      edge gaps, and a trail of at most 14 dots. */
  predicate EnemyOk(e: Enemy, width: int) {
    e.w == e.h && 20.0 <= e.w < 56.0 &&
    EdgeGap <= e.x <= width as real - e.w - EdgeGap &&
    |e.trail| <= TrailCap
  }

  /** The obstacle `spawnEnemy` creates at level `level`. */
  function NewEnemy(d: EnemyDraws, width: int, level: LevelIndex): Enemy
    requires EnemyDrawsOk(d)
  {
    var lane := LaneOf(d.lane);
    var size := 20.0 + d.size * 36.0;
    var base := 2.4 + d.base * 2.6;
    Enemy(lane, KeepInside(LaneCentre(width, lane) - size / 2.0, size, width),
          -size - d.drop * 120.0, size, size, base * Level(level).speedMul,
          0.01 + d.ay * 0.03, KindOf(d.kind), [],
          d.phase * Pi * 2.0, 10.0 + d.amp * 18.0, 0.006 + d.osc * 0.01)
  }

  /** A new obstacle is a square 20 to 56 wide, centred on its lane as far
      as the edge gaps allow, wholly above the canvas, without trail, and
      falling at 2.4 to 5 times the level's speed multiplier. */
  lemma NewEnemyFits(d: EnemyDraws, width: int, level: LevelIndex)
    requires EnemyDrawsOk(d) && width >= 300
    ensures var e := NewEnemy(d, width, level);
      EnemyOk(e, width) && e.trail == [] &&
      e.lane == LaneOf(d.lane) && e.kind == KindOf(d.kind) &&
      e.x == KeepInside(LaneCentre(width, e.lane) - e.w / 2.0, e.w, width) &&
      e.y <= -e.w &&
      2.4 * Level(level).speedMul <= e.speed < 5.0 * Level(level).speedMul
  {
    var base := 2.4 + d.base * 2.6;
    assert base * Level(level).speedMul < 5.0 * Level(level).speedMul;
  }

  /** The dot `addTrail` appends: the obstacle's centre, sized by its width. */
  function TrailDotOf(e: Enemy): TrailDot {
    var size := RoundHalfUp(e.w * 0.28);
    TrailDot(e.x + e.w / 2.0, e.y + e.h / 2.0, 0.0, TrailFade, if size >= 6 then size else 6)
  }

  /** `addTrail`: push the current centre; when that makes more than 14 dots,
      drop the oldest. */
  function AddTrail(e: Enemy): Enemy {
    var pushed := e.trail + [TrailDotOf(e)];
    if |pushed| > TrailCap then e.(trail := pushed[1..]) else e.(trail := pushed)
  }

  /** The trail is a bounded queue: the newest dot is the obstacle's centre,
      a trail that had room grows by exactly that dot, a full one loses its
      oldest dot, never more than 14 dots are kept, and nothing but the
      trail changes. */
  lemma AddTrailPushes(e: Enemy)
    ensures var r := AddTrail(e);
      r == e.(trail := r.trail) &&
      |r.trail| > 0 && r.trail[|r.trail| - 1] == TrailDotOf(e) &&
      (|e.trail| <= TrailCap ==> |r.trail| <= TrailCap) &&
      (|e.trail| < TrailCap ==> r.trail == e.trail + [TrailDotOf(e)]) &&
      (|e.trail| >= TrailCap ==> r.trail == e.trail[1..] + [TrailDotOf(e)])
  {
  }

  /** Every dot of a trail one frame older. */
  function AgedTrail(t: seq<TrailDot>, dt: real): seq<TrailDot> {
    seq(|t|, k requires 0 <= k < |t| => t[k].(age := t[k].age + dt))
  }

  /** The per-frame loop that ages a trail in place. */
  method AgeTrail(t: seq<TrailDot>, dt: real) returns (r: seq<TrailDot>)
    ensures r == AgedTrail(t, dt)
  {
    r := t;
    var k := 0;
    while k < |r|
      invariant 0 <= k <= |r| == |t|
      invariant forall j :: 0 <= j < k ==> r[j] == t[j].(age := t[j].age + dt)
      invariant forall j :: k <= j < |r| ==> r[j] == t[j]
    {
      r := r[k := r[k].(age := r[k].age + dt)];
      k := k + 1;
    }
  }

  /** The numbers one frame needs for one obstacle: the sine of its
      advanced phase (the sine itself is computed outside the model) and
      the draw that decides whether a trail dot is added. */
  datatype FrameDraw = FrameDraw(sine: real, trailRoll: real)

  /** What the sweeps read but do not change: the frame's elapsed time, the
      player's position, the canvas size and the pause flag. */
  datatype Env = Env(dt: real, px: real, py: real, width: int, height: int, paused: bool)

  /** The oscillation offset of one frame, from the sine of the phase. */
  function Wobble(sine: real, amp: real): real {
    sine * amp * 0.03
  }

  /** Where lane-seeking steers an obstacle's left edge. */
  function LaneTarget(e: Enemy, width: int): real {
    KeepInside(LaneCentre(width, e.lane) - e.w / 2.0, e.w, width)
  }

  /** One frame of obstacle motion before the trail: a tenth of the way to
      its lane target, phase advanced, speed raised by its acceleration,
      then a fall by the new speed plus the oscillation offset. */
  function Glide(e: Enemy, sine: real, dt: real, width: int): Enemy {
    var target := LaneTarget(e, width);
    var speed := e.speed + e.ay * (dt / 16.0);
    e.(x := e.x + (target - e.x) * 0.1,
       phase := e.phase + e.oscSpeed * dt,
       speed := speed,
       y := e.y + speed * (dt / 16.0) + Wobble(sine, e.oscAmp))
  }

  /** One frame of obstacle motion: glide, then maybe a trail dot, then the
      trail aged. */
  function MoveEnemy(e: Enemy, d: FrameDraw, dt: real, width: int): Enemy {
    var moved := Glide(e, d.sine, dt, width);
    var trailed := if d.trailRoll < 0.68 then AddTrail(moved) else moved;
    trailed.(trail := AgedTrail(trailed.trail, dt))
  }

  /** Motion keeps an obstacle's lane, size and type; lane-seeking never
      overshoots the target; and an obstacle inside the edge gaps with a
      bounded trail stays so. */
  lemma MoveEnemyKeepsShape(e: Enemy, d: FrameDraw, dt: real, width: int)
    ensures var r := MoveEnemy(e, d, dt, width);
      r.lane == e.lane && r.w == e.w && r.h == e.h && r.kind == e.kind &&
      Min(e.x, LaneTarget(e, width)) <= r.x <= Max(e.x, LaneTarget(e, width)) &&
      (width >= 300 && EnemyOk(e, width) ==> EnemyOk(r, width))
  {
    AddTrailPushes(Glide(e, d.sine, dt, width));
  }

  // ----- power-ups ----------------------------------------------------

  datatype PowerupKind = Shield | Slow | Life | Boom | Bonus

  const PowerupKinds: seq<PowerupKind> := [Shield, Slow, Life, Boom, Bonus]

  datatype PowerUp = PowerUp(x: real, y: real, w: real, h: real, kind: PowerupKind, dy: real)

  function PowerupBox(p: PowerUp): Rect {
    Rect(p.x, p.y, p.w, p.h)
  }

  /** `types[Math.floor(r * types.length)]`: a uniformly chosen kind. */
  function PowerupKindOf(r: real): (k: PowerupKind)
    requires Unit(r)
    ensures k == Shield <==> r < 0.2
    ensures k == Slow <==> 0.2 <= r < 0.4
    ensures k == Life <==> 0.4 <= r < 0.6
    ensures k == Boom <==> 0.6 <= r < 0.8
    ensures k == Bonus <==> 0.8 <= r
  {
    var n := (r * 5.0).Floor;
    assert 0 <= n < 5 by { assert n as real <= r * 5.0 < n as real + 1.0; }
    PowerupKinds[n]
  }

  /** Side of a power-up: 8% of the canvas width, rounded, between 34 and 72. */
  function PowerupSize(width: int): (s: int)
    ensures 34 <= s <= 72
  {
    RoundHalfUp(Max(34.0, Min(72.0, width as real * 0.08)))
  }

  /** The power-up `spawnPowerupAt(x, y)` creates. */
  function NewPowerUp(x: real, y: real, r: real, width: int): PowerUp
    requires Unit(r)
  {
    var size := PowerupSize(width) as real;
    PowerUp(KeepInside(x, size, width), y, size, size, PowerupKindOf(r), 1.8)
  }

  /** A new power-up is a square of the canvas-relative size, of the drawn
      kind, at the requested height, and kept inside the edge gaps: moved
      only when the requested column would cross one. */
  lemma NewPowerUpFits(x: real, y: real, r: real, width: int)
    requires Unit(r) && width >= 300
    ensures var p := NewPowerUp(x, y, r, width);
      p.w == p.h == PowerupSize(width) as real && p.y == y && p.kind == PowerupKindOf(r) &&
      EdgeGap <= p.x <= width as real - p.w - EdgeGap &&
      (EdgeGap <= x <= width as real - p.w - EdgeGap ==> p.x == x)
  {
  }

  /** True when the centre of `p` is closer than 120 to the point (x, y).
      Comparing the squared distance with 120 squared decides the same as
      the square root against 120, since both sides are non-negative. */
  predicate Near(p: PowerUp, x: real, y: real) {
    var dx := (p.x + p.w / 2.0) - x;
    var dy := (p.y + p.h / 2.0) - y;
    dx * dx + dy * dy < MinPowerupDist * MinPowerupDist
  }

  /** Some live power-up's centre is closer than 120 to (x, y). */
  predicate AnyNear(ps: seq<PowerUp>, x: real, y: real) {
    exists k :: 0 <= k < |ps| && Near(ps[k], x, y)
  }

  /** The loop in `spawnPowerupAt` that looks for a live power-up too close
      to the candidate point. */
  method TooClose(ps: seq<PowerUp>, x: real, y: real) returns (near: bool)
    ensures near <==> exists k :: 0 <= k < |ps| && Near(ps[k], x, y)
  {
    near := false;
    var k := 0;
    while k < |ps|
      invariant 0 <= k <= |ps|
      invariant forall j :: 0 <= j < k ==> !Near(ps[j], x, y)
    {
      if Near(ps[k], x, y) {
        return true;
      }
      k := k + 1;
    }
  }

  /** What `spawnPowerupAt(x, y)` leaves in the pool. */
  function PowerupsAfterSpawn(ps: seq<PowerUp>, x: real, y: real, r: real, width: int): seq<PowerUp>
    requires Unit(r)
  {
    if |ps| >= MaxPowerups then ps
    else if AnyNear(ps, x, y) then ps
    else ps + [NewPowerUp(x, y, r, width)]
  }

  /** Nothing is added when the pool is full or a live power-up's centre is
      closer than 120 to (x, y); otherwise exactly the new power-up is
      appended. So the pool never holds more than one. */
  lemma PowerupsAfterSpawnRule(ps: seq<PowerUp>, x: real, y: real, r: real, width: int)
    requires Unit(r)
    ensures var rs := PowerupsAfterSpawn(ps, x, y, r, width);
      (|ps| <= MaxPowerups ==> |rs| <= MaxPowerups) &&
      (rs == ps || rs == ps + [NewPowerUp(x, y, r, width)]) &&
      (rs != ps <==> |ps| < MaxPowerups && !AnyNear(ps, x, y))
  {
  }

  /** What `spawnEnemy` leaves in the pool. */
  function EnemiesAfterSpawn(es: seq<Enemy>, d: EnemyDraws, width: int, level: LevelIndex): seq<Enemy>
    requires EnemyDrawsOk(d)
  {
    if |es| >= MaxEnemies then es else es + [NewEnemy(d, width, level)]
  }

  /** Nothing is added once 18 obstacles are live; otherwise exactly the new
      obstacle is appended. So the pool never holds more than 18, and a pool
      of obstacles inside the edge gaps stays so. */
  lemma EnemiesAfterSpawnRule(es: seq<Enemy>, d: EnemyDraws, width: int, level: LevelIndex)
    requires EnemyDrawsOk(d) && width >= 300
    ensures var rs := EnemiesAfterSpawn(es, d, width, level);
      (|es| <= MaxEnemies ==> |rs| <= MaxEnemies) &&
      (rs == es || rs == es + [NewEnemy(d, width, level)]) &&
      (rs != es <==> |es| < MaxEnemies) &&
      ((forall e <- es :: EnemyOk(e, width)) ==> forall e <- rs :: EnemyOk(e, width))
  {
    NewEnemyFits(d, width, level);
  }

  /** One frame of power-up fall. */
  function MovePowerUp(p: PowerUp, dt: real): PowerUp {
    p.(y := p.y + p.dy * (dt / 16.0))
  }

  // ----- particles ----------------------------------------------------

  datatype Particle = Particle(x: real, y: real, vx: real, vy: real, age: real, life: real)

  /** One frame of particle drift and ageing. */
  function MoveParticle(t: Particle, dt: real): (r: Particle)
    ensures r.age == t.age + dt && r.life == t.life
  {
    t.(age := t.age + dt, x := t.x + t.vx * dt * 0.02, y := t.y + t.vy * dt * 0.02)
  }
}
