/** The collision listener: what each contact between two entities does to
    the world. The world here is the set of live entities with their
    component kinds, the membership of the hit enemy's squadron, the
    player's kill counter, the enemy's life gauge, the pending timeline
    tasks and the calls made into the player listener, the tween manager
    and the entity factory. Sounds are left out. */
module Collisions {
  import opened Ecs
  import opened Components
  import opened Position
  import opened Player

  /** The part of the game a contact can change. */
  datatype World = World(
    entities: set<Id>,
    components: map<Id, set<Kind>>,
    ships: set<Id>,            // the hit enemy's squadron
    killed: int,               // the player's enemiesKilled counter
    gauge: int,                // the hit enemy's life gauge
    tasks: seq<Task>,
    effects: seq<Effect>)

  /** One entity leaves the engine. */
  function Without(w: World, e: Id): (r: World)
    ensures e !in r.entities && e !in r.components
    ensures r.entities == w.entities - {e} && r.components == w.components - {e}
    ensures r.ships == w.ships && r.killed == w.killed && r.gauge == w.gauge
    ensures r.tasks == w.tasks && r.effects == w.effects
  {
    w.(entities := w.entities - {e}, components := w.components - {e})
  }

  /** How many times the player was charged a life. */
  function LivesLost(w: World, player: Id): nat
  {
    multiset(w.effects)[LifeLost(player)]
  }

  /** How many times the player was credited for this enemy. */
  function ScoresFor(w: World, player: Id, enemy: Id): nat
  {
    multiset(w.effects)[ScoreForEnemy(player, enemy)]
  }

  /** The part of a hit that always happens: an explosion at (x, y), the
      bullet gone, the player credited and one point of life off the enemy. */
  function Struck(w: World, enemy: Id, player: Id, bullet: Id, x: real, y: real): World
  {
    Without(w, bullet).(gauge := w.gauge - 1, effects := w.effects + [Explosion(x, y), ScoreForEnemy(player, enemy)])
  }

  /** The part of a lethal hit: the kill counted, the achievements checked,
      the enemy's tweens stopped and the enemy out of its squadron; then it
      leaves the engine, or for a boss (`bossKind`) its death explosions
      start and its removal waits for its death timeline. */
  function Killed(w: World, enemy: Id, player: Id, bossKind: bool): World
  {
    var d := w.(killed := w.killed + 1, ships := w.ships - {enemy},
                effects := w.effects + [AchievementsChecked(player), TweensKilled(enemy)]
                           + (if bossKind then [BossExplosionsStarted(enemy)] else []));
    if bossKind then d.(tasks := d.tasks + [Task(OnTimelineComplete, RemoveEntity(enemy))]) else Without(d, enemy)
  }

  /** A hit takes the bullet and one point of life, credits the player once
      and logs the explosion first. */
  lemma StruckSpec(w: World, enemy: Id, player: Id, bullet: Id, x: real, y: real)
    ensures var r := Struck(w, enemy, player, bullet, x, y);
            r.entities == w.entities - {bullet} && r.components == w.components - {bullet}
            && r.ships == w.ships && r.killed == w.killed && r.tasks == w.tasks && r.gauge == w.gauge - 1
            && |r.effects| > |w.effects| && r.effects[..|w.effects|] == w.effects && r.effects[|w.effects|] == Explosion(x, y)
            && ScoresFor(r, player, enemy) == ScoresFor(w, player, enemy) + 1
            && LivesLost(r, player) == LivesLost(w, player)
  {
    var r := Struck(w, enemy, player, bullet, x, y);
    assert multiset(r.effects) == multiset(w.effects) + multiset{Explosion(x, y), ScoreForEnemy(player, enemy)};
  }

  /** A kill counts once, takes the enemy out of its squadron and out of the
      engine (a boss only through its task), and neither credits nor
      charges the player. */
  lemma KilledSpec(w: World, enemy: Id, player: Id, bossKind: bool)
    ensures var r := Killed(w, enemy, player, bossKind);
            r.entities == (if bossKind then w.entities else w.entities - {enemy})
            && r.components == (if bossKind then w.components else w.components - {enemy})
            && r.ships == w.ships - {enemy} && r.killed == w.killed + 1 && r.gauge == w.gauge
            && r.tasks == w.tasks + (if bossKind then [Task(OnTimelineComplete, RemoveEntity(enemy))] else [])
            && |r.effects| > |w.effects| && r.effects[..|w.effects|] == w.effects
            && ScoresFor(r, player, enemy) == ScoresFor(w, player, enemy)
            && LivesLost(r, player) == LivesLost(w, player)
  {
    var r := Killed(w, enemy, player, bossKind);
    var extra := [AchievementsChecked(player), TweensKilled(enemy)] + (if bossKind then [BossExplosionsStarted(enemy)] else []);
    assert r.effects == w.effects + extra;
    assert multiset(r.effects) == multiset(w.effects) + multiset(extra);
  }

  /** A player bullet hits an enemy: the hit, and the kill when the enemy's
      life runs out. */
  function EnemyShot(w: World, enemy: Id, player: Id, bullet: Id, x: real, y: real, bossKind: bool): World
  {
    var h := Struck(w, enemy, player, bullet, x, y);
    if h.gauge <= 0 then Killed(h, enemy, player, bossKind) else h
  }

  /** What one hit does: the bullet always goes and the player is always
      credited once, never charged a life; the hit is logged after what came
      before, starting with the explosion; the enemy loses one point of
      life, and when that kills it the kill is counted, it leaves its
      squadron and it leaves the engine — at once, or for a boss through a
      task run when its death timeline completes. Nothing else leaves. */
  lemma EnemyShotSpec(w: World, enemy: Id, player: Id, bullet: Id, x: real, y: real, bossKind: bool)
    requires enemy != bullet
    ensures var r := EnemyShot(w, enemy, player, bullet, x, y, bossKind);
            bullet !in r.entities && bullet !in r.components
            && r.entities <= w.entities && w.entities - r.entities <= {bullet, enemy}
            && (enemy in r.entities <==> enemy in w.entities && (w.gauge > 1 || bossKind))
            && r.gauge == w.gauge - 1
            && ScoresFor(r, player, enemy) == ScoresFor(w, player, enemy) + 1
            && LivesLost(r, player) == LivesLost(w, player)
            && |r.effects| > |w.effects| && r.effects[..|w.effects|] == w.effects
            && r.effects[|w.effects|] == Explosion(x, y)
            && r.killed == w.killed + (if w.gauge <= 1 then 1 else 0)
            && r.ships <= w.ships && (enemy in r.ships <==> enemy in w.ships && w.gauge > 1)
            && w.ships - r.ships <= {enemy}
            && r.tasks == w.tasks + (if w.gauge <= 1 && bossKind then [Task(OnTimelineComplete, RemoveEntity(enemy))] else [])
  {
    var h := Struck(w, enemy, player, bullet, x, y);
    StruckSpec(w, enemy, player, bullet, x, y);
    if h.gauge <= 0 {
      var r := Killed(h, enemy, player, bossKind);
      KilledSpec(h, enemy, player, bossKind);
      assert r.effects[..|w.effects|] == h.effects[..|w.effects|];
      assert r.effects[|w.effects|] == h.effects[|w.effects|];
    }
  }

  /** An enemy's body touches the player: an explosion on the player and
      one life lost; no entity goes. */
  function BodyHit(w: World, player: Id, x: real, y: real): (r: World)
    ensures r.entities == w.entities && r.components == w.components && r.ships == w.ships
    ensures LivesLost(r, player) == LivesLost(w, player) + 1
    ensures r.killed == w.killed && r.gauge == w.gauge && r.tasks == w.tasks
  {
    w.(effects := w.effects + [Explosion(x, y), LifeLost(player)])
  }

  /** An enemy bullet touches the player: as a body hit, and the bullet goes. */
  function BulletHit(w: World, player: Id, bullet: Id, x: real, y: real): (r: World)
    ensures r.entities == w.entities - {bullet} && bullet !in r.components
    ensures LivesLost(r, player) == LivesLost(w, player) + 1
    ensures r.ships == w.ships && r.killed == w.killed && r.gauge == w.gauge && r.tasks == w.tasks
  {
    BodyHit(Without(w, bullet), player, x, y)
  }

  /** The shield destroys an enemy: an explosion on the enemy, its tweens
      stopped, and it leaves its squadron and the engine, with no credit and
      no kill counted. */
  function ShieldKill(w: World, enemy: Id, x: real, y: real): (r: World)
    ensures r.entities == w.entities - {enemy} && enemy !in r.ships && r.ships == w.ships - {enemy}
    ensures forall p :: ScoresFor(r, p, enemy) == ScoresFor(w, p, enemy)
    ensures r.killed == w.killed && r.gauge == w.gauge && r.tasks == w.tasks
  {
    var r := Without(w, enemy).(effects := w.effects + [Explosion(x, y), TweensKilled(enemy)], ships := w.ships - {enemy});
    assert forall p :: multiset(r.effects)[ScoreForEnemy(p, enemy)] == multiset(w.effects)[ScoreForEnemy(p, enemy)];
    r
  }

  /** A lethal shot and a shield kill of the same ordinary enemy leave the
      same entities and squadron; only the shot credits the player and
      counts the kill. */
  lemma ShotAndShieldKillAgree(w: World, enemy: Id, player: Id, bullet: Id, x: real, y: real)
    requires enemy != bullet && w.gauge <= 1
    ensures var s := EnemyShot(w, enemy, player, bullet, x, y, false);
            var k := ShieldKill(Without(w, bullet), enemy, x, y);
            && s.entities == k.entities && s.ships == k.ships && s.tasks == k.tasks
            && s.killed == k.killed + 1
            && ScoresFor(s, player, enemy) == ScoresFor(k, player, enemy) + 1
  {
  }

  /** A run of player bullets all landing on the same enemy. */
  function ShotsLanded(w: World, enemy: Id, player: Id, bullets: seq<Id>, x: real, y: real, bossKind: bool): World
    requires enemy !in bullets
    decreases |bullets|
  {
    if bullets == [] then w
    else ShotsLanded(EnemyShot(w, enemy, player, bullets[0], x, y, bossKind), enemy, player, bullets[1..], x, y, bossKind)
  }

  /** An enemy with life gauge g survives its first g - 1 hits and dies on
      the g-th: every hit credits the player, the kill is counted exactly
      once, and an ordinary enemy leaves the engine (a boss schedules its
      removal) only on the last one. */
  lemma {:induction false} ShotsToKill(w: World, enemy: Id, player: Id, bullets: seq<Id>, x: real, y: real, bossKind: bool)
    requires enemy !in bullets && enemy in w.entities
    requires 0 < |bullets| <= w.gauge
    decreases |bullets|
    ensures var r := ShotsLanded(w, enemy, player, bullets, x, y, bossKind);
            && r.gauge == w.gauge - |bullets|
            && ScoresFor(r, player, enemy) == ScoresFor(w, player, enemy) + |bullets|
            && r.killed == w.killed + (if |bullets| == w.gauge then 1 else 0)
            && (enemy in r.entities <==> |bullets| < w.gauge || bossKind)
            && (enemy in r.ships <==> enemy in w.ships && |bullets| < w.gauge)
            && r.tasks == w.tasks + (if |bullets| == w.gauge && bossKind then [Task(OnTimelineComplete, RemoveEntity(enemy))] else [])
  {
    var w' := EnemyShot(w, enemy, player, bullets[0], x, y, bossKind);
    EnemyShotSpec(w, enemy, player, bullets[0], x, y, bossKind);
    if |bullets| > 1 {
      ShotsToKill(w', enemy, player, bullets[1..], x, y, bossKind);
    } else {
      assert bullets[1..] == [];
    }
  }

  /** The listener the physics step calls on each contact. */
  class CollisionListener {
    const engine: Engine

    constructor (engine: Engine)
      ensures this.engine == engine
    {
      this.engine := engine;
    }

    /** The members of a squadron, none when there is no squadron. */
    function ShipsOf(squadron: SquadronComponent?): set<Id>
      reads squadron
    {
      if squadron == null then {} else squadron.ships
    }

    /** The engine's part of the world, completed with the given squadron,
        kill counter and life gauge. */
    function Snapshot(ships: set<Id>, killed: int, gauge: int): World
      reads engine
    {
      World(engine.entities, engine.components, ships, killed, gauge, engine.tasks, engine.effects)
    }

    /** A player bullet hits an enemy. The explosion is at the bullet for a
        boss-flagged enemy and at the enemy otherwise; the enemy's squadron
        component must exist when the hit is lethal. */
    method EnemyShoot(enemy: Id, player: Id, bullet: Id, enemyC: EnemyComponent, playerC: PlayerComponent,
                      squadron: SquadronComponent?, enemyAt: PositionComponent, bulletAt: PositionComponent)
      requires engine.Valid() && playerC.Valid()
      requires enemy != bullet
      requires enemyC.lifeGauge <= 1 ==> squadron != null
      modifies engine, enemyC, playerC, squadron
      ensures engine.Valid() && playerC.Valid() && engine.nextId == old(engine.nextId)
      ensures var x := if old(enemyC.isBoss) then bulletAt.x else enemyAt.x;
              var y := if old(enemyC.isBoss) then bulletAt.y else enemyAt.y;
              var bossKind := old(enemy in engine.components && Boss in engine.components[enemy]);
              Snapshot(ShipsOf(squadron), playerC.enemiesKilled, enemyC.lifeGauge)
                == EnemyShot(old(Snapshot(ShipsOf(squadron), playerC.enemiesKilled, enemyC.lifeGauge)), enemy, player, bullet, x, y, bossKind)
      ensures squadron != null && old(enemyC.lifeGauge) > 1 ==> squadron.ships == old(squadron.ships)
      ensures playerC.enemiesCountLevel == old(playerC.enemiesCountLevel) && playerC.enemiesKilledLevel == old(playerC.enemiesKilledLevel)
      ensures playerC.laserShipKilled == old(playerC.laserShipKilled) && playerC.howManyLifesLosed == old(playerC.howManyLifesLosed)
      ensures playerC.score == old(playerC.score) && playerC.highscore == old(playerC.highscore) && playerC.lives == old(playerC.lives)
      ensures playerC.powerLevel == old(playerC.powerLevel) && playerC.bombs == old(playerC.bombs)
      ensures playerC.fireDelay == old(playerC.fireDelay) && playerC.fireDelaySide == old(playerC.fireDelaySide)
      ensures playerC.rewardAds == old(playerC.rewardAds) && playerC.level == old(playerC.level) && playerC.secondScript == old(playerC.secondScript)
      ensures squadron != null ==> squadron.toShoot == old(squadron.toShoot) && squadron.scoreBonus == old(squadron.scoreBonus)
      ensures squadron != null ==> squadron.powerUpAfterDestruction == old(squadron.powerUpAfterDestruction)
      ensures squadron != null ==> squadron.displayBonusSquadron == old(squadron.displayBonusSquadron)
      ensures enemyC.points == old(enemyC.points) && enemyC.attackCapacity == old(enemyC.attackCapacity)
      ensures enemyC.squadron == old(enemyC.squadron) && enemyC.isBoss == old(enemyC.isBoss)
      ensures enemyC.isTank == old(enemyC.isTank) && enemyC.isLaserShip == old(enemyC.isLaserShip)
      ensures enemyC.probabilityAttack == old(enemyC.probabilityAttack) && enemyC.bulletVelocity == old(enemyC.bulletVelocity)
    {
      var at := if enemyC.isBoss then bulletAt else enemyAt;
      var bossKind := enemy in engine.components && Boss in engine.components[enemy];
      ghost var w := Snapshot(ShipsOf(squadron), playerC.enemiesKilled, enemyC.lifeGauge);
      engine.Emit(Explosion(at.x, at.y));
      engine.RemoveEntity(bullet);
      engine.Emit(ScoreForEnemy(player, enemy));
      enemyC.Hit();
      assert Snapshot(ShipsOf(squadron), playerC.enemiesKilled, enemyC.lifeGauge) == Struck(w, enemy, player, bullet, at.x, at.y);
      if enemyC.IsDead() {
        Kill(enemy, player, enemyC, playerC, squadron, bossKind);
      }
    }

    /** The lethal part of a hit: the kill counted, achievements checked,
        the enemy's tweens stopped, the enemy out of its squadron, then out
        of the engine — at once, or for a boss once its death timeline has
        played. */
    method Kill(enemy: Id, player: Id, enemyC: EnemyComponent, playerC: PlayerComponent, squadron: SquadronComponent, bossKind: bool)
      requires engine.Valid() && playerC.Valid()
      requires bossKind == (enemy in engine.components && Boss in engine.components[enemy])
      modifies engine, playerC, squadron
      ensures engine.Valid() && playerC.Valid() && engine.nextId == old(engine.nextId)
      ensures Snapshot(ShipsOf(squadron), playerC.enemiesKilled, enemyC.lifeGauge)
                == Killed(old(Snapshot(ShipsOf(squadron), playerC.enemiesKilled, enemyC.lifeGauge)), enemy, player, bossKind)
      ensures playerC.enemiesCountLevel == old(playerC.enemiesCountLevel) && playerC.enemiesKilledLevel == old(playerC.enemiesKilledLevel)
      ensures playerC.laserShipKilled == old(playerC.laserShipKilled) && playerC.howManyLifesLosed == old(playerC.howManyLifesLosed)
      ensures playerC.score == old(playerC.score) && playerC.highscore == old(playerC.highscore) && playerC.lives == old(playerC.lives)
      ensures playerC.powerLevel == old(playerC.powerLevel) && playerC.bombs == old(playerC.bombs)
      ensures playerC.fireDelay == old(playerC.fireDelay) && playerC.fireDelaySide == old(playerC.fireDelaySide)
      ensures playerC.rewardAds == old(playerC.rewardAds) && playerC.level == old(playerC.level) && playerC.secondScript == old(playerC.secondScript)
      ensures squadron.toShoot == old(squadron.toShoot) && squadron.scoreBonus == old(squadron.scoreBonus)
      ensures squadron.powerUpAfterDestruction == old(squadron.powerUpAfterDestruction)
      ensures squadron.displayBonusSquadron == old(squadron.displayBonusSquadron)
    {
      playerC.enemiesKilled := playerC.enemiesKilled + 1;
      engine.Emit(AchievementsChecked(player));
      engine.Emit(TweensKilled(enemy));
      squadron.RemoveEntity(enemy);
      if enemy in engine.components && Boss in engine.components[enemy] {
        engine.Emit(BossExplosionsStarted(enemy));
        engine.Schedule(Task(OnTimelineComplete, RemoveEntity(enemy)));
      } else {
        engine.RemoveEntity(enemy);
      }
    }

    /** An enemy's body touches the player. */
    method PlayerHitByEnemyBody(player: Id, enemy: Id, playerAt: PositionComponent)
      requires engine.Valid()
      modifies engine
      ensures engine.Valid() && engine.nextId == old(engine.nextId)
      ensures Snapshot({}, 0, 0) == BodyHit(old(Snapshot({}, 0, 0)), player, playerAt.x, playerAt.y)
    {
      engine.Emit(Explosion(playerAt.x, playerAt.y));
      engine.Emit(LifeLost(player));
    }

    /** An enemy bullet touches the player. */
    method PlayerHitByEnemyBullet(player: Id, bullet: Id, playerAt: PositionComponent)
      requires engine.Valid()
      modifies engine
      ensures engine.Valid() && engine.nextId == old(engine.nextId)
      ensures Snapshot({}, 0, 0) == BulletHit(old(Snapshot({}, 0, 0)), player, bullet, playerAt.x, playerAt.y)
    {
      engine.Emit(Explosion(playerAt.x, playerAt.y));
      engine.RemoveEntity(bullet);
      engine.Emit(LifeLost(player));
    }

    /** The player picks up a power-up: one step up the power ladder, the
        pickup's tweens stopped and the pickup gone. */
    method PlayerPowerUp(player: Id, powerUp: Id, playerC: PlayerComponent)
      requires engine.Valid() && playerC.Valid()
      modifies engine, playerC
      ensures engine.Valid() && playerC.Valid() && engine.nextId == old(engine.nextId)
      ensures playerC.powerLevel == Next(old(playerC.powerLevel))
      ensures (playerC.fireDelay, playerC.fireDelaySide) == playerC.cfg.DelaysFor(playerC.powerLevel)
      ensures old(playerC.powerLevel) != TripleVeryFast ==>
                playerC.score == old(playerC.score) && playerC.highscore == old(playerC.highscore) && playerC.lives == old(playerC.lives)
      ensures old(playerC.powerLevel) == TripleVeryFast ==>
                && playerC.score == old(playerC.score) + 100
                && playerC.highscore == (if playerC.score > old(playerC.highscore) then playerC.score else old(playerC.highscore))
                && playerC.lives == (if LifeGained(old(playerC.score), playerC.score, playerC.cfg.newLife) then old(playerC.lives) + 1 else old(playerC.lives))
      ensures playerC.bombs == old(playerC.bombs) && playerC.howManyLifesLosed == old(playerC.howManyLifesLosed)
      ensures playerC.enemiesKilled == old(playerC.enemiesKilled) && playerC.enemiesKilledLevel == old(playerC.enemiesKilledLevel)
      ensures playerC.laserShipKilled == old(playerC.laserShipKilled) && playerC.rewardAds == old(playerC.rewardAds) && playerC.level == old(playerC.level)
      ensures playerC.secondScript == old(playerC.secondScript) && playerC.enemiesCountLevel == old(playerC.enemiesCountLevel)
      ensures engine.entities == old(engine.entities) - {powerUp} && engine.components == old(engine.components) - {powerUp}
      ensures engine.effects == old(engine.effects) + [TweensKilled(powerUp), TweensKilled(powerUp)]
      ensures engine.tasks == old(engine.tasks)
    {
      playerC.PowerUp();
      engine.Emit(TweensKilled(powerUp));
      engine.Emit(TweensKilled(powerUp));
      engine.RemoveEntity(powerUp);
    }

    /** The player picks up a shield: a shield is created around the player,
        the pickup's tweens stopped and the pickup gone. */
    method PlayerShieldUp(player: Id, shieldUp: Id)
      requires engine.Valid()
      modifies engine
      ensures engine.Valid() && engine.nextId == old(engine.nextId)
      ensures engine.entities == old(engine.entities) - {shieldUp} && engine.components == old(engine.components) - {shieldUp}
      ensures engine.effects == old(engine.effects) + [ShieldCreated(player), TweensKilled(shieldUp), TweensKilled(shieldUp)]
      ensures engine.tasks == old(engine.tasks)
    {
      engine.Emit(ShieldCreated(player));
      engine.Emit(TweensKilled(shieldUp));
      engine.Emit(TweensKilled(shieldUp));
      engine.RemoveEntity(shieldUp);
    }

    /** An enemy bullet meets the shield: only the bullet goes. */
    method BulletStoppedByShield(bullet: Id)
      requires engine.Valid()
      modifies engine
      ensures engine.Valid() && engine.nextId == old(engine.nextId)
      ensures Snapshot({}, 0, 0) == Without(old(Snapshot({}, 0, 0)), bullet)
    {
      engine.RemoveEntity(bullet);
    }

    /** An enemy meets the shield. */
    method EnemyShootByShield(enemy: Id, squadron: SquadronComponent, enemyAt: PositionComponent)
      requires engine.Valid()
      modifies engine, squadron
      ensures engine.Valid() && engine.nextId == old(engine.nextId)
      ensures Snapshot(squadron.ships, 0, 0) == ShieldKill(old(Snapshot(squadron.ships, 0, 0)), enemy, enemyAt.x, enemyAt.y)
      ensures squadron.toShoot == old(squadron.toShoot) && squadron.scoreBonus == old(squadron.scoreBonus)
      ensures squadron.powerUpAfterDestruction == old(squadron.powerUpAfterDestruction)
      ensures squadron.displayBonusSquadron == old(squadron.displayBonusSquadron)
    {
      engine.Emit(Explosion(enemyAt.x, enemyAt.y));
      engine.Emit(TweensKilled(enemy));
      squadron.RemoveEntity(enemy);
      engine.RemoveEntity(enemy);
    }
  }
}
