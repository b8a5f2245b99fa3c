/** Collision consequences: what a hit by an obstacle and what each kind
    of power-up do to the session counters and to the obstacle pool. */
module Rules {
  import opened Entities

  const ShieldCap: int := 3
  const LivesCap: int := 5
  const BonusPoints: int := 12
  const SlowFactor: real := 0.64

  /** The counters collisions change: score, lives, the player's shield
      charges, and whether the round is still running. */
  datatype Session = Session(score: int, lives: int, shield: int, running: bool)

  /** The session invariant: shield within [0, 3], lives within [0, 5], a
      running round has at least one life left, and the score is not
      negative. */
  predicate SessionOk(s: Session) {
    0 <= s.shield <= ShieldCap && 0 <= s.lives <= LivesCap &&
    (s.running ==> s.lives >= 1) && s.score >= 0
  }

  /** `onPlayerHit`: a shield charge absorbs the hit; otherwise a life is
      lost, and losing the last one ends the round. */
  function HitEffect(s: Session): Session {
    if s.shield > 0 then s.(shield := s.shield - 1)
    else
      var lives := s.lives - 1;
      s.(lives := lives, running := if lives <= 0 then false else s.running)
  }

  /** A hit costs exactly one shield charge or one life, the shield taking
      precedence; the score is untouched; without a shield the round goes
      on exactly when it was running and a life is left; and a running
      session that kept the invariant still keeps it. */
  lemma HitEffectRule(s: Session)
    ensures var r := HitEffect(s);
      r.score == s.score &&
      r.shield + r.lives == s.shield + s.lives - 1 &&
      (s.shield > 0 ==> r.shield == s.shield - 1 && r.lives == s.lives && r.running == s.running) &&
      (s.shield <= 0 ==> r.shield == s.shield && r.lives == s.lives - 1) &&
      (s.shield <= 0 ==> (r.running <==> s.running && r.lives > 0)) &&
      (SessionOk(s) && s.running ==> SessionOk(r))
  {
  }

  /** `enemies.filter(x => x.type === 'big')`. */
  function KeepBig(es: seq<Enemy>): (r: seq<Enemy>)
    ensures |r| <= |es|
    ensures forall e <- r :: e.kind == Big && e in es
  {
    if es == [] then []
    else if es[|es| - 1].kind == Big then KeepBig(es[..|es| - 1]) + [es[|es| - 1]]
    else KeepBig(es[..|es| - 1])
  }

  /** Filtering distributes over concatenation, so the big obstacles stay in
      the order they had. */
  lemma {:induction false} KeepBigAppend(a: seq<Enemy>, b: seq<Enemy>)
    ensures KeepBig(a + b) == KeepBig(a) + KeepBig(b)
    decreases |b|
  {
    if b == [] {
      assert a + b == a;
    } else {
      var n := |b| - 1;
      assert (a + b)[..|a + b| - 1] == a + b[..n];
      KeepBigAppend(a, b[..n]);
    }
  }

  /** The filter keeps every big obstacle as often as it occurs and no
      other obstacle at all. */
  lemma {:induction false} KeepBigCounts(es: seq<Enemy>, e: Enemy)
    ensures multiset(KeepBig(es))[e] == if e.kind == Big then multiset(es)[e] else 0
    decreases |es|
  {
    if es != [] {
      var n := |es| - 1;
      assert es == es[..n] + [es[n]];
      KeepBigCounts(es[..n], e);
    }
  }

  /** A pool of big obstacles passes the filter untouched. */
  lemma {:induction false} KeepBigOnlyBig(es: seq<Enemy>)
    requires forall e <- es :: e.kind == Big
    ensures KeepBig(es) == es
    decreases |es|
  {
    if es != [] {
      var n := |es| - 1;
      assert es == es[..n] + [es[n]];
      KeepBigOnlyBig(es[..n]);
    }
  }

  /** `enemies.forEach(x => x.speed *= 0.64)`, as a value. */
  function Slowed(es: seq<Enemy>): seq<Enemy> {
    seq(|es|, k requires 0 <= k < |es| => es[k].(speed := es[k].speed * SlowFactor))
  }

  /** The obstacle pool and the counters after a power-up of kind `kind` is
      collected. */
  datatype Outcome = Outcome(enemies: seq<Enemy>, session: Session)

  /** `applyPowerup`. */
  function PowerupEffect(kind: PowerupKind, es: seq<Enemy>, s: Session): Outcome {
    match kind
    case Shield => Outcome(es, s.(shield := if s.shield + 1 <= ShieldCap then s.shield + 1 else ShieldCap))
    case Slow => Outcome(Slowed(es), s)
    case Life => Outcome(es, s.(lives := if s.lives + 1 <= LivesCap then s.lives + 1 else LivesCap))
    case Boom => Outcome(KeepBig(es), s)
    case Bonus => Outcome(es, s.(score := s.score + BonusPoints))
  }

  /** A pickup keeps the session invariant, never lowers the score nor ends
      or restarts the round, and never grows the pool: the bomb keeps only
      the big obstacles, the slow-down slows each obstacle by the factor
      0.64 and keeps everything else, and the others leave the pool as it
      was. */
  lemma PowerupEffectRule(kind: PowerupKind, es: seq<Enemy>, s: Session)
    ensures var r := PowerupEffect(kind, es, s);
      (SessionOk(s) ==> SessionOk(r.session)) &&
      r.session.score >= s.score && r.session.running == s.running &&
      |r.enemies| <= |es| &&
      (kind == Boom ==> r.enemies == KeepBig(es)) &&
      (kind == Slow ==> |r.enemies| == |es| &&
                        (forall k :: 0 <= k < |es| ==> r.enemies[k] == es[k].(speed := es[k].speed * SlowFactor))) &&
      (kind != Boom && kind != Slow ==> r.enemies == es)
  {
  }

  /** Lives and shield never grow past their caps, and each pickup adds at
      most one of either. */
  lemma PowerupCaps(kind: PowerupKind, es: seq<Enemy>, s: Session)
    requires SessionOk(s)
    ensures var r := PowerupEffect(kind, es, s).session;
      r.shield <= ShieldCap && r.lives <= LivesCap &&
      s.shield <= r.shield <= s.shield + 1 && s.lives <= r.lives <= s.lives + 1 &&
      r.score - s.score == (if kind == Bonus then BonusPoints else 0)
  {
  }

  /** Collecting an extra life does not look at the running flag: a round
      that has just ended with no lives left gets one life back and stays
      over. */
  lemma LifeAfterGameOver(es: seq<Enemy>, s: Session)
    requires !s.running && s.lives == 0
    ensures PowerupEffect(Life, es, s).session.lives == 1
    ensures !PowerupEffect(Life, es, s).session.running
  {
  }
}
