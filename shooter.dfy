/** One frame of the vertical shooter: the phase machine `start | playing |
    gameover`, auto-fire, the bullet and enemy collision passes, combo scoring
    and its timer, and the compaction of the entity arrays. The behaviour of
    the entity classes and of the spawner lives in modules this model does not
    see; it enters as the `Hooks` of a tick. */
module Shooter {
  import opened Optional
  import Seqs

  /** `'start' | 'playing' | 'gameover'`. */
  datatype Phase = StartScreen | Playing | GameOverScreen

  /** The per-frame input snapshot handed to the player's update. */
  datatype Input = Input(left: bool, right: bool, touchX: Option<real>)

  /** The player ship; `cooldown` and `invincible` stand for the hidden state
      its own update, shot and hit logic keep. */
  datatype Player = Player(x: real, y: real, width: real, height: real, lives: int,
                           cooldown: int, invincible: int)

  /** A bullet; `x` is its horizontal centre. */
  datatype Bullet = Bullet(x: real, y: real, width: real, height: real, alive: bool)

  /** An enemy; `x` is its horizontal centre, `hp` its hidden hit points and
      `score` the points it is worth. */
  datatype Enemy = Enemy(x: real, y: real, width: real, height: real, hp: int,
                         score: nat, color: string, alive: bool)

  /** An explosion particle; its motion is hidden in `stepParticle`. */
  datatype Particle = Particle(x: real, y: real, color: string, alive: bool)

  /** A background star. */
  datatype Star = Star(x: real, y: real)

  /** What `hit()` reports (`applied`: the enemy was destroyed, or the hit on
      the player counted) and the entity as the call leaves it. */
  datatype HitReport<T> = HitReport(applied: bool, after: T)

  /** What `shoot()` returns (the bullet) and the shooter as it leaves it. */
  datatype Shot = Shot(shooter: Player, bullet: Bullet)

  /** The behaviour of the entity classes, as seen by one tick. */
  datatype Hooks = Hooks(
    stepStar: Star -> Star,
    stepPlayer: (Player, Input) -> Player,
    canShoot: Player -> bool,
    shoot: Player -> Shot,
    stepBullet: Bullet -> Bullet,
    stepEnemy: Enemy -> Enemy,
    hitEnemy: Enemy -> HitReport<Enemy>,
    hitPlayer: Player -> HitReport<Player>,
    stepParticle: Particle -> Particle)

  /** The inputs of one tick: the input snapshot and what the spawner yields. */
  datatype Frame = Frame(input: Input, spawned: seq<Enemy>)

  /** Everything `update`, `start` and `gameOver` read and write. */
  datatype World = World(
    phase: Phase, score: int, combo: int, comboTimer: int, hiScore: int,
    player: Option<Player>, bullets: seq<Bullet>, enemies: seq<Enemy>,
    particles: seq<Particle>, stars: seq<Star>)

  const COMBO_WINDOW: int := 90
  const MAX_MULTIPLIER: int := 10
  const WHITE: string := "#ffffff"
  const HIT_COLOR: string := "#6C63FF"
  const STAR_COUNT: nat := 80

  function Min(a: int, b: int): (m: int)
    ensures m <= a && m <= b && (m == a || m == b)
  {
    if a < b then a else b
  }

  // ---------------------------------------------------------------- collision

  /** `checkCollision`: the two axis-aligned rectangles overlap with positive
      area; sharing only an edge is not a collision. */
  predicate CheckCollision(x1: real, y1: real, w1: real, h1: real,
                           x2: real, y2: real, w2: real, h2: real)
  {
    x1 < x2 + w2 && x1 + w1 > x2 && y1 < y2 + h2 && y1 + h1 > y2
  }

  /** The point lies strictly inside the rectangle. */
  predicate Inside(px: real, py: real, x: real, y: real, w: real, h: real)
  {
    x < px < x + w && y < py < y + h
  }

  /** For rectangles of positive size, colliding means having an interior point
      in common. */
  lemma {:induction false} CollisionIsSharedInterior(x1: real, y1: real, w1: real, h1: real,
                                  x2: real, y2: real, w2: real, h2: real)
    requires w1 > 0.0 && h1 > 0.0 && w2 > 0.0 && h2 > 0.0
    ensures CheckCollision(x1, y1, w1, h1, x2, y2, w2, h2) <==>
              exists px, py :: Inside(px, py, x1, y1, w1, h1) && Inside(px, py, x2, y2, w2, h2)
  {
    if CheckCollision(x1, y1, w1, h1, x2, y2, w2, h2) {
      var left := if x1 < x2 then x2 else x1;
      var right := if x1 + w1 < x2 + w2 then x1 + w1 else x2 + w2;
      var bottom := if y1 < y2 then y2 else y1;
      var top := if y1 + h1 < y2 + h2 then y1 + h1 else y2 + h2;
      var px, py := (left + right) / 2.0, (bottom + top) / 2.0;
      assert Inside(px, py, x1, y1, w1, h1) && Inside(px, py, x2, y2, w2, h2);
    }
  }

  /** The test does not depend on which rectangle comes first. */
  lemma {:induction false} CollisionSymmetric(x1: real, y1: real, w1: real, h1: real,
                           x2: real, y2: real, w2: real, h2: real)
    ensures CheckCollision(x1, y1, w1, h1, x2, y2, w2, h2) ==
            CheckCollision(x2, y2, w2, h2, x1, y1, w1, h1)
  {
  }

  /** Rectangles that only touch along an edge do not collide. */
  lemma {:induction false} TouchingIsNoCollision(x1: real, y1: real, w1: real, h1: real,
                              x2: real, y2: real, w2: real, h2: real)
    requires x1 + w1 == x2 || x2 + w2 == x1 || y1 + h1 == y2 || y2 + h2 == y1
    ensures !CheckCollision(x1, y1, w1, h1, x2, y2, w2, h2)
  {
  }

  /** The bullet-versus-enemy test: both boxes are given by their centre x. */
  predicate BulletHitsEnemy(b: Bullet, e: Enemy)
  {
    CheckCollision(b.x - b.width / 2.0, b.y, b.width, b.height,
                   e.x - e.width / 2.0, e.y, e.width, e.height)
  }

  /** The enemy-versus-player test: the player box is given by its left edge. */
  predicate EnemyHitsPlayer(p: Player, e: Enemy)
  {
    CheckCollision(p.x, p.y, p.width, p.height,
                   e.x - e.width / 2.0, e.y, e.width, e.height)
  }

  // ---------------------------------------------------------------- pieces of a tick

  predicate BulletAlive(b: Bullet) { b.alive }
  predicate EnemyAlive(e: Enemy) { e.alive }
  predicate ParticleAlive(p: Particle) { p.alive }

  /** `n` particles created at `(x, y)` in `color`. */
  function Burst(n: nat, x: real, y: real, color: string): (ps: seq<Particle>)
    ensures |ps| == n
    ensures forall k :: 0 <= k < n ==> ps[k] == Particle(x, y, color, true)
  {
    seq(n, _ => Particle(x, y, color, true))
  }

  /** The first enemy at index `j` or later that is alive and overlaps `b`. */
  function FirstTarget(b: Bullet, enemies: seq<Enemy>, j: nat): (t: Option<nat>)
    requires j <= |enemies|
    decreases |enemies| - j
    ensures t.Some? ==> j <= t.value < |enemies| && enemies[t.value].alive &&
                        BulletHitsEnemy(b, enemies[t.value])
    ensures t.Some? ==> forall k :: j <= k < t.value ==> !(enemies[k].alive && BulletHitsEnemy(b, enemies[k]))
    ensures t.None? ==> forall k :: j <= k < |enemies| ==> !(enemies[k].alive && BulletHitsEnemy(b, enemies[k]))
  {
    if j == |enemies| then None
    else if enemies[j].alive && BulletHitsEnemy(b, enemies[j]) then Some(j)
    else FirstTarget(b, enemies, j + 1)
  }

  /** The scoring of a destroyed enemy `e`: one more in the combo, the combo
      window reopened, points scaled by the capped combo, 12 particles in the
      enemy's colour and 6 white ones. */
  function Killed(w: World, e: Enemy): World
  {
    var combo := w.combo + 1;
    var cy := e.y + e.height / 2.0;
    w.(combo := combo, comboTimer := COMBO_WINDOW,
       score := w.score + e.score * Min(combo, MAX_MULTIPLIER),
       particles := w.particles + Burst(12, e.x, cy, e.color) + Burst(6, e.x, cy, WHITE))
  }

  /** Bullet `i` strikes enemy `j`: the bullet is spent and the enemy takes the hit. */
  function Struck(w: World, i: nat, j: nat, hooks: Hooks): (r: World)
    requires i < |w.bullets| && j < |w.enemies|
    ensures |r.bullets| == |w.bullets| && |r.enemies| == |w.enemies|
    ensures r.player == w.player && r.phase == w.phase && r.hiScore == w.hiScore
  {
    var report := hooks.hitEnemy(w.enemies[j]);
    var hit := w.(bullets := w.bullets[i := w.bullets[i].(alive := false)],
                  enemies := w.enemies[j := report.after]);
    if report.applied then Killed(hit, report.after) else hit
  }

  /** The bullet pass from bullet `i` on: each bullet still alive strikes the
      first alive enemy it overlaps, if any. */
  function BulletPassFrom(w: World, i: nat, hooks: Hooks): (r: World)
    requires i <= |w.bullets|
    decreases |w.bullets| - i
    ensures |r.bullets| == |w.bullets| && |r.enemies| == |w.enemies|
    ensures r.player == w.player && r.phase == w.phase && r.hiScore == w.hiScore
  {
    if i == |w.bullets| then w
    else
      var next :=
        if !w.bullets[i].alive then w
        else match FirstTarget(w.bullets[i], w.enemies, 0)
             case None => w
             case Some(j) => Struck(w, i, j, hooks);
      BulletPassFrom(next, i + 1, hooks)
  }

  /** `gameOver`: the round ends and the high score becomes the larger of the
      two scores. */
  function Ended(w: World): World
  {
    w.(phase := GameOverScreen, hiScore := if w.score > w.hiScore then w.score else w.hiScore)
  }

  /** Enemy `j` rams the player: the enemy is gone whatever the hit reports; a
      hit that counts sprays 20 particles, breaks the combo and, without lives
      left, ends the round. */
  function Collided(w: World, j: nat, hooks: Hooks): (r: World)
    requires j < |w.enemies| && w.player.Some?
    ensures |r.enemies| == |w.enemies| && r.player.Some? && r.bullets == w.bullets
  {
    var report := hooks.hitPlayer(w.player.value);
    var p := report.after;
    var rammed := w.(enemies := w.enemies[j := w.enemies[j].(alive := false)], player := Some(p));
    if !report.applied then rammed
    else
      var hurt := rammed.(particles := rammed.particles +
                            Burst(20, p.x + p.width / 2.0, p.y + p.height / 2.0, HIT_COLOR),
                          combo := 0);
      if p.lives <= 0 then Ended(hurt) else hurt
  }

  /** The player pass from enemy `j` on: every alive enemy that overlaps the
      player rams it. The pass goes on after a game over. */
  function PlayerPassFrom(w: World, j: nat, hooks: Hooks): (r: World)
    requires j <= |w.enemies| && w.player.Some?
    decreases |w.enemies| - j
    ensures |r.enemies| == |w.enemies| && r.player.Some? && r.bullets == w.bullets
  {
    if j == |w.enemies| then w
    else
      var next :=
        if w.enemies[j].alive && EnemyHitsPlayer(w.player.value, w.enemies[j])
        then Collided(w, j, hooks) else w;
      PlayerPassFrom(next, j + 1, hooks)
  }

  /** The combo timer counts down while positive; the combo breaks on the frame
      it reaches zero. */
  function Decayed(w: World): World
  {
    if w.comboTimer > 0 then
      var t := w.comboTimer - 1;
      w.(comboTimer := t, combo := if t <= 0 then 0 else w.combo)
    else w
  }

  /** The part of a playing tick before the combo timer: the player moves and
      perhaps fires, bullets move and the dead ones go, the spawn joins the
      enemies and all enemies move. */
  function Prepared(w: World, frame: Frame, hooks: Hooks): (r: World)
    requires w.player.Some?
    ensures r.player.Some?
  {
    var moved := hooks.stepPlayer(w.player.value, frame.input);
    var shot := hooks.shoot(moved);
    var p := if hooks.canShoot(moved) then shot.shooter else moved;
    var fired := if hooks.canShoot(moved) then w.bullets + [shot.bullet] else w.bullets;
    w.(player := Some(p),
       bullets := Seqs.Filter(Seqs.MapAll(hooks.stepBullet, fired), BulletAlive),
       enemies := Seqs.MapAll(hooks.stepEnemy, w.enemies + frame.spawned))
  }

  /** The end of a playing tick: dead enemies go, particles move and the dead ones go. */
  function Swept(w: World, hooks: Hooks): World
  {
    w.(enemies := Seqs.Filter(w.enemies, EnemyAlive),
       particles := Seqs.Filter(Seqs.MapAll(hooks.stepParticle, w.particles), ParticleAlive))
  }

  /** A world in which a playing round has a player. */
  predicate Playable(w: World)
  {
    w.phase == Playing ==> w.player.Some?
  }

  /** `update`: the stars always move; the rest happens only while playing. */
  function Tick(w: World, frame: Frame, hooks: Hooks): (r: World)
    requires Playable(w)
    ensures Playable(r)
  {
    var sky := w.(stars := Seqs.MapAll(hooks.stepStar, w.stars));
    if sky.phase != Playing then sky
    else Swept(PlayerPassFrom(BulletPassFrom(Decayed(Prepared(sky, frame, hooks)), 0, hooks), 0, hooks), hooks)
  }

  /** A run of ticks. */
  function Run(w: World, frames: seq<Frame>, hooks: Hooks): (r: World)
    requires Playable(w)
    decreases |frames|
    ensures Playable(r)
  {
    if frames == [] then w else Run(Tick(w, frames[0], hooks), frames[1..], hooks)
  }

  /** `start`: a fresh round with the given newly created player. */
  function Started(w: World, recruit: Player): World
  {
    w.(phase := Playing, score := 0, combo := 0, comboTimer := 0, player := Some(recruit),
       bullets := [], enemies := [], particles := [])
  }

  /** The combo counter is shown from a combo of two on. */
  predicate ComboVisible(combo: int)
  {
    combo >= 2
  }

  // ---------------------------------------------------------------- properties

  /** The scoring state a round keeps: a non-negative score and combo, a timer
      within the combo window, and no combo once the window has closed. */
  predicate Scoring(w: World)
  {
    && w.score >= 0 && w.combo >= 0
    && 0 <= w.comboTimer <= COMBO_WINDOW
    && (w.comboTimer == 0 ==> w.combo == 0)
  }

  /** Outside a playing round a tick moves the stars and nothing else. */
  lemma {:induction false} IdleTick(w: World, frame: Frame, hooks: Hooks)
    requires w.phase != Playing
    ensures Tick(w, frame, hooks) == w.(stars := Seqs.MapAll(hooks.stepStar, w.stars))
  {
  }

  /** Once a round is over (or before it starts) any number of ticks leave
      everything but the stars as it was. */
  lemma {:induction false} IdleRun(w: World, frames: seq<Frame>, hooks: Hooks)
    requires w.phase != Playing
    ensures Run(w, frames, hooks).(stars := w.stars) == w
    decreases |frames|
  {
    if frames != [] {
      var next := Tick(w, frames[0], hooks);
      IdleTick(w, frames[0], hooks);
      IdleRun(next, frames[1..], hooks);
    }
  }

  /** A kill adds exactly one to the combo, reopens the full window, scores the
      enemy's points times a multiplier between 1 and 10, and appends exactly 18
      particles. */
  lemma {:induction false} KillScoring(w: World, e: Enemy)
    requires w.combo >= 0
    ensures var r := Killed(w, e);
            && r.combo == w.combo + 1 && r.comboTimer == COMBO_WINDOW
            && (exists m :: 1 <= m <= MAX_MULTIPLIER && r.score == w.score + e.score * m)
            && |r.particles| == |w.particles| + 18
            && r.particles[..|w.particles|] == w.particles
  {
    var m := Min(w.combo + 1, MAX_MULTIPLIER);
    assert 1 <= m <= MAX_MULTIPLIER;
    assert Killed(w, e).score == w.score + e.score * m;
  }

  /** A strike spends the bullet, puts the enemy's hit into place and touches
      nothing else; only a kill changes combo, timer, score and particles. */
  lemma {:induction false} StrikeEffects(w: World, i: nat, j: nat, hooks: Hooks)
    requires i < |w.bullets| && j < |w.enemies| && w.combo >= 0
    ensures var r := Struck(w, i, j, hooks);
            var report := hooks.hitEnemy(w.enemies[j]);
            && r.bullets == w.bullets[i := w.bullets[i].(alive := false)]
            && r.enemies == w.enemies[j := report.after]
            && r.stars == w.stars
            && (report.applied ==> r.combo == w.combo + 1 && r.comboTimer == COMBO_WINDOW &&
                                   r.score > w.score - 1 && |r.particles| == |w.particles| + 18)
            && (!report.applied ==> r.combo == w.combo && r.comboTimer == w.comboTimer &&
                                    r.score == w.score && r.particles == w.particles)
  {
    var report := hooks.hitEnemy(w.enemies[j]);
    if report.applied {
      var hit := w.(bullets := w.bullets[i := w.bullets[i].(alive := false)],
                    enemies := w.enemies[j := report.after]);
      KillScoring(hit, report.after);
    }
  }

  /** A bullet aims at the first alive enemy it overlaps: every one before it
      in array order is dead or clear of the bullet. */
  lemma {:induction false} FirstTargetIsFirst(b: Bullet, enemies: seq<Enemy>, j: nat)
    requires j < |enemies| && enemies[j].alive && BulletHitsEnemy(b, enemies[j])
    requires forall k :: 0 <= k < j ==> !(enemies[k].alive && BulletHitsEnemy(b, enemies[k]))
    ensures FirstTarget(b, enemies, 0) == Some(j)
  {
  }

  /** On the frame the timer runs out the combo is broken, so a kill later in
      that same frame starts a new combo of one. */
  lemma {:induction false} ExpiryBeforeCollisions(w: World, i: nat, j: nat, hooks: Hooks)
    requires w.comboTimer == 1
    requires i < |w.bullets| && j < |w.enemies| && hooks.hitEnemy(w.enemies[j]).applied
    ensures Decayed(w).combo == 0 && Decayed(w).comboTimer == 0
    ensures Struck(Decayed(w), i, j, hooks).combo == 1
  {
  }

  /** The timer never goes below zero, the combo breaks exactly when the timer
      drops from one to zero, and otherwise the combo is kept. */
  lemma {:induction false} DecayedTimer(w: World)
    requires w.comboTimer >= 0
    ensures var r := Decayed(w);
            && r.comboTimer == (if w.comboTimer > 0 then w.comboTimer - 1 else 0)
            && r.combo == (if w.comboTimer == 1 then 0 else w.combo)
            && r.(combo := w.combo, comboTimer := w.comboTimer) == w
  {
  }

  /** `n` frames of the combo timer. */
  function DecayedTimes(w: World, n: nat): World
    decreases n
  {
    if n == 0 then w else DecayedTimes(Decayed(w), n - 1)
  }

  /** Without new kills a combo is gone after at most 90 frames. */
  lemma {:induction false} ComboExpires(w: World, n: nat)
    requires 0 <= w.comboTimer <= n && (w.comboTimer == 0 ==> w.combo == 0)
    ensures DecayedTimes(w, n).combo == 0 && DecayedTimes(w, n).comboTimer == 0
    decreases n
  {
    if n > 0 {
      ComboExpires(Decayed(w), n - 1);
    }
  }

  lemma {:induction false} BulletPassKeepsScoring(w: World, i: nat, hooks: Hooks)
    requires i <= |w.bullets| && Scoring(w)
    ensures Scoring(BulletPassFrom(w, i, hooks))
    decreases |w.bullets| - i
  {
    if i < |w.bullets| {
      var next :=
        if !w.bullets[i].alive then w
        else match FirstTarget(w.bullets[i], w.enemies, 0)
             case None => w
             case Some(j) => Struck(w, i, j, hooks);
      if w.bullets[i].alive && FirstTarget(w.bullets[i], w.enemies, 0).Some? {
        StrikeEffects(w, i, FirstTarget(w.bullets[i], w.enemies, 0).value, hooks);
      }
      assert Scoring(next);
      BulletPassKeepsScoring(next, i + 1, hooks);
    }
  }

  lemma {:induction false} PlayerPassKeepsScoring(w: World, j: nat, hooks: Hooks)
    requires j <= |w.enemies| && w.player.Some? && Scoring(w)
    ensures Scoring(PlayerPassFrom(w, j, hooks))
    decreases |w.enemies| - j
  {
    if j < |w.enemies| {
      var next :=
        if w.enemies[j].alive && EnemyHitsPlayer(w.player.value, w.enemies[j])
        then Collided(w, j, hooks) else w;
      assert Scoring(next);
      PlayerPassKeepsScoring(next, j + 1, hooks);
    }
  }

  /** Every tick keeps the scoring state. */
  lemma {:induction false} TickKeepsScoring(w: World, frame: Frame, hooks: Hooks)
    requires Playable(w) && Scoring(w)
    ensures Scoring(Tick(w, frame, hooks))
  {
    var sky := w.(stars := Seqs.MapAll(hooks.stepStar, w.stars));
    if sky.phase == Playing {
      var d := Decayed(Prepared(sky, frame, hooks));
      assert Scoring(d);
      BulletPassKeepsScoring(d, 0, hooks);
      var b := BulletPassFrom(d, 0, hooks);
      PlayerPassKeepsScoring(b, 0, hooks);
    }
  }

  /** The player pass only ever marks enemies dead: each one is kept as it was
      or kept with `alive` cleared, and the enemies before `j` are untouched.
      That an overlapping alive enemy is the one cleared is `CollisionEffects`. */
  lemma {:induction false} PlayerPassOnlyKills(w: World, j: nat, hooks: Hooks)
    requires j <= |w.enemies| && w.player.Some?
    ensures var r := PlayerPassFrom(w, j, hooks);
            forall k :: 0 <= k < |w.enemies| ==>
              r.enemies[k] == w.enemies[k] || r.enemies[k] == w.enemies[k].(alive := false)
    ensures var r := PlayerPassFrom(w, j, hooks);
            forall k :: 0 <= k < j ==> r.enemies[k] == w.enemies[k]
    decreases |w.enemies| - j
  {
    if j < |w.enemies| {
      var next :=
        if w.enemies[j].alive && EnemyHitsPlayer(w.player.value, w.enemies[j])
        then Collided(w, j, hooks) else w;
      PlayerPassOnlyKills(next, j + 1, hooks);
    }
  }

  /** An alive enemy that overlaps the player is gone after the collision,
      whatever `hit()` reports; only a hit that counts breaks the combo,
      sprays exactly 20 particles, and ends the round when no life is left. */
  lemma {:induction false} CollisionEffects(w: World, j: nat, hooks: Hooks)
    requires j < |w.enemies| && w.player.Some?
    ensures var r := Collided(w, j, hooks);
            var report := hooks.hitPlayer(w.player.value);
            && !r.enemies[j].alive
            && r.score == w.score && r.comboTimer == w.comboTimer
            && (report.applied ==> r.combo == 0 && |r.particles| == |w.particles| + 20 &&
                                   (r.phase == GameOverScreen <==> report.after.lives <= 0 || w.phase == GameOverScreen))
            && (!report.applied ==> r.combo == w.combo && r.particles == w.particles && r.phase == w.phase)
  {
  }

  /** `gameOver` keeps the larger score and is idempotent; the high score only
      changes when the round beat it. */
  lemma {:induction false} EndedHiScore(w: World)
    ensures var r := Ended(w);
            && r.phase == GameOverScreen
            && r.hiScore >= w.hiScore && r.hiScore >= w.score
            && (r.hiScore == w.hiScore || r.hiScore == w.score)
            && (r.hiScore != w.hiScore <==> w.score > w.hiScore)
            && Ended(r) == r
  {
  }

  /** `start` begins a round in the scoring state, empty of bullets, enemies and
      particles, keeping the high score; so the high score of an ended round
      survives the restart. */
  lemma {:induction false} StartedFresh(w: World, recruit: Player)
    ensures var r := Started(w, recruit);
            && r.phase == Playing && Playable(r) && Scoring(r)
            && r.bullets == [] && r.enemies == [] && r.particles == []
            && r.hiScore == w.hiScore && r.stars == w.stars
    ensures Started(Ended(w), recruit).hiScore >= w.score
  {
  }

  /** After a playing tick the bullet, enemy and particle arrays hold only
      live entities. */
  lemma {:induction false} TickCompacts(w: World, frame: Frame, hooks: Hooks)
    requires Playable(w) && w.phase == Playing
    ensures var r := Tick(w, frame, hooks);
            && (forall k :: 0 <= k < |r.enemies| ==> r.enemies[k].alive)
            && (forall k :: 0 <= k < |r.particles| ==> r.particles[k].alive)
  {
    var r := Tick(w, frame, hooks);
    forall k | 0 <= k < |r.enemies| ensures r.enemies[k].alive {
      assert r.enemies[k] in r.enemies;
    }
    forall k | 0 <= k < |r.particles| ensures r.particles[k].alive {
      assert r.particles[k] in r.particles;
    }
  }

  /** A second consecutive kill is the first one that shows the combo. */
  lemma {:induction false} ComboShownFromSecondKill(w: World, e: Enemy)
    requires w.combo >= 0
    ensures ComboVisible(Killed(w, e).combo) <==> w.combo >= 1
  {
  }

  // ---------------------------------------------------------------- the object

  /** The `Game` object's logical state. */
  class Game {
    var phase: Phase
    var score: int
    var combo: int
    var comboTimer: int
    var hiScore: int
    var player: Option<Player>
    var bullets: seq<Bullet>
    var enemies: seq<Enemy>
    var particles: seq<Particle>
    var stars: seq<Star>

    function Snapshot(): World
      reads this
    {
      World(phase, score, combo, comboTimer, hiScore, player, bullets, enemies, particles, stars)
    }

    /** A round in progress or over always has its player. */
    ghost predicate Valid()
      reads this
    {
      phase != StartScreen ==> player.Some?
    }

    /** A new game waits on the start screen with the stored high score and
        a sky of 80 stars. */
    constructor (storedHiScore: int, makeStar: nat -> Star)
      ensures Valid() && Scoring(Snapshot())
      ensures phase == StartScreen && score == 0 && combo == 0 && comboTimer == 0
      ensures hiScore == storedHiScore && player == None
      ensures bullets == [] && enemies == [] && particles == []
      ensures stars == seq(STAR_COUNT, k requires 0 <= k => makeStar(k))
    {
      phase := StartScreen;
      score := 0;
      combo := 0;
      comboTimer := 0;
      hiScore := storedHiScore;
      player := None;
      bullets := [];
      enemies := [];
      particles := [];
      stars := [];
      new;
      var i := 0;
      while i < STAR_COUNT
        invariant 0 <= i <= STAR_COUNT
        invariant stars == seq(i, k requires 0 <= k => makeStar(k))
        invariant phase == StartScreen && score == 0 && combo == 0 && comboTimer == 0
        invariant hiScore == storedHiScore && player == None
        invariant bullets == [] && enemies == [] && particles == []
      {
        stars := stars + [makeStar(i)];
        i := i + 1;
      }
    }

    /** `start`, with `recruit` the newly created player. */
    method Start(recruit: Player)
      modifies this
      ensures Valid() && Snapshot() == Started(old(Snapshot()), recruit)
    {
      phase := Playing;
      score := 0;
      combo := 0;
      comboTimer := 0;
      bullets := [];
      enemies := [];
      particles := [];
      player := Some(recruit);
    }

    /** `gameOver`. */
    method GameOver()
      requires player.Some?
      modifies this
      ensures Valid() && Snapshot() == Ended(old(Snapshot()))
    {
      phase := GameOverScreen;
      if score > hiScore {
        hiScore := score;
      }
    }

    /** Appends `n` particles created at `(x, y)` in `color` to `ps`, one at a time. */
    static method Spray(ps: seq<Particle>, n: nat, x: real, y: real, color: string)
      returns (out: seq<Particle>)
      ensures out == ps + Burst(n, x, y, color)
    {
      out := ps;
      var i := 0;
      while i < n
        invariant 0 <= i <= n
        invariant out == ps + Burst(i, x, y, color)
      {
        out := out + [Particle(x, y, color, true)];
        i := i + 1;
      }
    }

    /** The inner scan of the bullet pass: the index of the first enemy that is
        alive and overlaps `b`. */
    method FindTarget(b: Bullet) returns (t: Option<nat>)
      ensures t == FirstTarget(b, enemies, 0)
    {
      var j := 0;
      while j < |enemies|
        invariant 0 <= j <= |enemies|
        invariant FirstTarget(b, enemies, j) == FirstTarget(b, enemies, 0)
      {
        if enemies[j].alive && BulletHitsEnemy(b, enemies[j]) {
          return Some(j);
        }
        j := j + 1;
      }
      return None;
    }

    /** Bullet `i` strikes enemy `j`. */
    method Strike(i: nat, j: nat, hooks: Hooks)
      requires i < |bullets| && j < |enemies|
      modifies this
      ensures Snapshot() == Struck(old(Snapshot()), i, j, hooks)
    {
      var report := hooks.hitEnemy(enemies[j]);
      bullets := bullets[i := bullets[i].(alive := false)];
      enemies := enemies[j := report.after];
      if report.applied {
        var e := report.after;
        combo := combo + 1;
        comboTimer := COMBO_WINDOW;
        score := score + e.score * Min(combo, MAX_MULTIPLIER);
        particles := Spray(particles, 12, e.x, e.y + e.height / 2.0, e.color);
        particles := Spray(particles, 6, e.x, e.y + e.height / 2.0, WHITE);
      }
    }

    /** Bullets against enemies, bullet by bullet in array order. */
    method BulletPass(hooks: Hooks)
      modifies this
      ensures Snapshot() == BulletPassFrom(old(Snapshot()), 0, hooks)
    {
      var i := 0;
      while i < |bullets|
        invariant 0 <= i <= |bullets|
        invariant BulletPassFrom(Snapshot(), i, hooks) == BulletPassFrom(old(Snapshot()), 0, hooks)
      {
        if bullets[i].alive {
          var target := FindTarget(bullets[i]);
          if target.Some? {
            Strike(i, target.value, hooks);
          }
        }
        i := i + 1;
      }
    }

    /** Enemy `j` rams the player. */
    method Collide(j: nat, hooks: Hooks)
      requires Valid() && j < |enemies| && player.Some?
      modifies this
      ensures Valid() && Snapshot() == Collided(old(Snapshot()), j, hooks)
    {
      var report := hooks.hitPlayer(player.value);
      enemies := enemies[j := enemies[j].(alive := false)];
      player := Some(report.after);
      if report.applied {
        var p := report.after;
        particles := Spray(particles, 20, p.x + p.width / 2.0, p.y + p.height / 2.0, HIT_COLOR);
        combo := 0;
        if p.lives <= 0 {
          GameOver();
        }
      }
    }

    /** Enemies against the player, enemy by enemy in array order. */
    method PlayerPass(hooks: Hooks)
      requires Valid() && player.Some?
      modifies this
      ensures Valid() && Snapshot() == PlayerPassFrom(old(Snapshot()), 0, hooks)
    {
      var j := 0;
      while j < |enemies|
        invariant 0 <= j <= |enemies| && Valid() && player.Some?
        invariant PlayerPassFrom(Snapshot(), j, hooks) == PlayerPassFrom(old(Snapshot()), 0, hooks)
      {
        if enemies[j].alive && EnemyHitsPlayer(player.value, enemies[j]) {
          Collide(j, hooks);
        }
        j := j + 1;
      }
    }

    /** The moves of a playing frame that come before the combo timer. */
    method Prepare(frame: Frame, hooks: Hooks)
      requires player.Some?
      modifies this
      ensures Snapshot() == Prepared(old(Snapshot()), frame, hooks)
    {
      var p := hooks.stepPlayer(player.value, frame.input);
      if hooks.canShoot(p) {
        var shot := hooks.shoot(p);
        p := shot.shooter;
        bullets := bullets + [shot.bullet];
      }
      player := Some(p);
      bullets := Seqs.Filter(Seqs.MapAll(hooks.stepBullet, bullets), BulletAlive);
      enemies := Seqs.MapAll(hooks.stepEnemy, enemies + frame.spawned);
    }

    /** The combo timer of a playing frame. */
    method Decay()
      modifies this
      ensures Snapshot() == Decayed(old(Snapshot()))
    {
      if comboTimer > 0 {
        comboTimer := comboTimer - 1;
        if comboTimer <= 0 {
          combo := 0;
        }
      }
    }

    /** The compaction that ends a playing frame. */
    method Sweep(hooks: Hooks)
      modifies this
      ensures Snapshot() == Swept(old(Snapshot()), hooks)
    {
      enemies := Seqs.Filter(enemies, EnemyAlive);
      particles := Seqs.Filter(Seqs.MapAll(hooks.stepParticle, particles), ParticleAlive);
    }

    /** `update`: one frame. */
    method Update(frame: Frame, hooks: Hooks)
      requires Valid()
      modifies this
      ensures Valid() && Snapshot() == Tick(old(Snapshot()), frame, hooks)
    {
      stars := Seqs.MapAll(hooks.stepStar, stars);
      if phase != Playing {
        return;
      }
      Prepare(frame, hooks);
      Decay();
      BulletPass(hooks);
      PlayerPass(hooks);
      Sweep(hooks);
    }
  }
}
