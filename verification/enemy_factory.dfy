/** Construction of enemies, laser ships, tanks, bosses, houses and
    squadrons: the type tables that fix each enemy's statistics, and the
    entities and components each constructor adds to the engine. */
module EnemyFactory {
  import opened Java
  import opened Ecs
  import opened Components
  import opened Position

  /** The ship type codes the two type switches distinguish; any other code
      falls to the switches' default branch. */
  datatype ShipType =
    | Ship1 | Ship2 | Ship3 | Ship4 | Ship5
    | LaserShip1 | LaserShip2 | LaserShip3 | LaserShip4
    | Lv3Ship1 | Lv3Ship2 | Lv3Ship3 | Lv3Ship4 | Lv3Ship5 | Lv3Ship6 | Lv3Ship7 | Lv3Ship8
    | OtherShip(code: int)

  datatype PlayMode = Loop | LoopPingPong

  /** FRAME_DURATION, or FRAME_DURATION_ENEMY_3 for the third ship. */
  datatype FrameRate = StandardFrames | Enemy3Frames

  datatype ShipStats = ShipStats(
    atlas: string, points: int, directionable: bool, strength: int,
    attackCapacity: int, playMode: PlayMode, frames: FrameRate)

  /** What an enemy is built from. */
  datatype EnemyCharacteristics = EnemyCharacteristics(
    atlasName: string, canAttack: bool, directionable: bool, rateShoot: int,
    velocityBullet: real, points: int, strength: int, attackCapacity: int)

  /** The statistics `createEnemyShip` gives each ship type. */
  function EnemyShipStats(t: ShipType): (r: ShipStats)
    ensures r.points == 200 || r.points == 250
    ensures r.strength == 1 || r.strength == 2
    ensures 1 <= r.attackCapacity <= 3
    ensures !r.directionable <==> t in {Ship3, Ship5, Lv3Ship5}
    ensures r.points == 250 <==> t in {Lv3Ship1, Lv3Ship3, Lv3Ship5, Lv3Ship7}
    ensures r.strength == 2 <==> t in {Lv3Ship1, Lv3Ship3, Lv3Ship7}
    ensures r.attackCapacity == 3 <==> t in {Lv3Ship1, Lv3Ship3}
    ensures r.attackCapacity == 1 <==> t in {Ship1, Ship2, Ship3, Ship4, Ship5}
    ensures (r.playMode == Loop) <==> t in {Ship1, Ship2, Ship3, Ship4}
    ensures (r.frames == Enemy3Frames) <==> t == Ship3
  {
    var base := ShipStats("", 200, true, 1, 1, Loop, StandardFrames);
    match t
    case Ship1 => base.(atlas := "enemy")
    case Ship2 => base.(atlas := "enemy2")
    case Ship3 => base.(atlas := "enemy3", directionable := false, frames := Enemy3Frames)
    case Ship4 => base.(atlas := "enemy4")
    case Ship5 => base.(atlas := "enemy5", directionable := false, playMode := LoopPingPong)
    case Lv3Ship1 => base.(atlas := "lark", playMode := LoopPingPong, attackCapacity := 3, strength := 2, points := 250)
    case Lv3Ship2 => base.(atlas := "stab", playMode := LoopPingPong, attackCapacity := 2)
    case Lv3Ship3 => base.(atlas := "squid", playMode := LoopPingPong, attackCapacity := 3, strength := 2, points := 250)
    case Lv3Ship4 => base.(atlas := "bug", playMode := LoopPingPong, attackCapacity := 2)
    case Lv3Ship5 => base.(atlas := "swarmer", playMode := LoopPingPong, attackCapacity := 2, directionable := false, points := 250)
    case Lv3Ship6 => base.(atlas := "stingray", playMode := LoopPingPong, attackCapacity := 2)
    case Lv3Ship7 => base.(atlas := "fish", playMode := LoopPingPong, attackCapacity := 2, strength := 2, points := 250)
    case _ => base.(atlas := "podfish", playMode := LoopPingPong, attackCapacity := 2)
  }

  /** Ships of types the enemy switch does not know are built as the podfish. */
  lemma UnknownShipIsPodfish(t: ShipType)
    requires t !in {Ship1, Ship2, Ship3, Ship4, Ship5, Lv3Ship1, Lv3Ship2, Lv3Ship3, Lv3Ship4, Lv3Ship5, Lv3Ship6, Lv3Ship7}
    ensures EnemyShipStats(t) == EnemyShipStats(Lv3Ship8)
    ensures EnemyShipStats(t).atlas == "podfish"
  {
  }

  /** The atlas region `createLaserShip` picks for a type. */
  function LaserShipAtlas(t: ShipType): (atlas: string)
    ensures atlas == "podfish" <==> t !in {LaserShip1, LaserShip2, LaserShip3, LaserShip4,
      Lv3Ship1, Lv3Ship2, Lv3Ship3, Lv3Ship4, Lv3Ship5, Lv3Ship6, Lv3Ship7}
  {
    match t
    case LaserShip1 => "staticEnemy1"
    case LaserShip2 => "staticEnemy2"
    case LaserShip3 => "staticEnemy3"
    case LaserShip4 => "staticEnemy4"
    case Lv3Ship1 => "lark"
    case Lv3Ship2 => "stab"
    case Lv3Ship3 => "squid"
    case Lv3Ship4 => "bug"
    case Lv3Ship5 => "swarmer"
    case Lv3Ship6 => "stingray"
    case Lv3Ship7 => "fish"
    case _ => "podfish"
  }

  /** Both switches agree on the level-3 ships they share. */
  lemma Level3AtlasesAgree(t: ShipType)
    requires t in {Lv3Ship1, Lv3Ship2, Lv3Ship3, Lv3Ship4, Lv3Ship5, Lv3Ship6, Lv3Ship7, Lv3Ship8}
    ensures LaserShipAtlas(t) == EnemyShipStats(t).atlas
  {
  }

  /** The sprite regions of a house and of its ruin. */
  function HouseRegion(houseType: int, house1: int): string
  {
    "house-" + IntToString(houseType - house1 + 1)
  }

  function DestroyedHouseRegion(houseType: int, house1: int): string
  {
    HouseRegion(houseType, house1) + "_destroyed"
  }

  /** Different house types use different sprites, and a ruin's sprite is
      never a house's sprite. */
  lemma HouseRegionsDistinct(a: int, b: int, house1: int)
    requires IsInt(a - house1 + 1) && IsInt(b - house1 + 1)
    ensures HouseRegion(a, house1) == HouseRegion(b, house1) ==> a == b
    ensures DestroyedHouseRegion(a, house1) != HouseRegion(b, house1)
  {
    var da, db := IntToString(a - house1 + 1), IntToString(b - house1 + 1);
    if HouseRegion(a, house1) == HouseRegion(b, house1) {
      assert da == HouseRegion(a, house1)[6..];
      assert db == HouseRegion(b, house1)[6..];
      IntToStringInjective(a - house1 + 1, b - house1 + 1);
    }
    // the ruin's name ends in a letter, a house's name in a digit
    var ra, rb := DestroyedHouseRegion(a, house1), HouseRegion(b, house1);
    var nb := NatToString(Abs(b - house1 + 1));
    NatToStringDigits(Abs(b - house1 + 1));
    assert IsDigit(nb[|nb| - 1]);
    assert rb[|rb| - 1] == db[|db| - 1] == nb[|nb| - 1];
    assert ra[|ra| - 1] == 'd';
  }

  /** The ExplosionBurst tasks of a boss's death: one every tenth of a second. */
  function BurstTasks(boss: Id, n: nat): (ts: seq<Task>)
    ensures |ts| == n
    ensures forall i | 0 <= i < n :: ts[i] == Task(After(i as real * 0.1), ExplosionBurst(boss))
  {
    if n == 0 then [] else BurstTasks(boss, n - 1) + [Task(After((n - 1) as real * 0.1), ExplosionBurst(boss))]
  }

  /** Constants the factory uses whose values are not part of this model. */
  datatype FactoryConstants = FactoryConstants(
    standardRateShoot: int, screenWidth: real, screenHeight: real,
    bossLevel1Gauge: int, bossLevel2Gauge: int, bossLevel3Gauge: int,
    house1: int, bossMinTrigger1: real, bossMinTrigger2: real)

  class EnemyEntityFactory {
    const engine: Engine
    const k: FactoryConstants

    constructor (engine: Engine, k: FactoryConstants)
      ensures this.engine == engine && this.k == k
    {
      this.engine := engine;
      this.k := k;
    }

    /** `createEnemy`: an entity carrying an enemy component built from the
        characteristics, a position, an animation, a sprite, a state, and a
        Directionable marker exactly when the characteristics ask for one. */
    method CreateEnemy(squadron: Option<Id>, ch: EnemyCharacteristics) returns (e: Id, enemy: EnemyComponent)
      requires engine.Valid()
      modifies engine
      ensures engine.Valid() && fresh(enemy)
      ensures e == old(engine.nextId) && engine.entities == old(engine.entities) + {e}
      ensures engine.components == old(engine.components)[e := EnemyKinds(ch.directionable)]
      ensures engine.effects == old(engine.effects) && engine.tasks == old(engine.tasks)
      ensures enemy.points == ch.points && enemy.lifeGauge == ch.strength
      ensures enemy.probabilityAttack == ch.rateShoot && enemy.bulletVelocity == ch.velocityBullet
      ensures enemy.attackCapacity == if ch.canAttack then ch.attackCapacity else 0
      ensures enemy.squadron == squadron
      ensures !enemy.isBoss && !enemy.isTank && !enemy.isLaserShip
    {
      enemy := new EnemyComponent();
      enemy.points := ch.points;
      enemy.lifeGauge := ch.strength;
      enemy.probabilityAttack := ch.rateShoot;
      enemy.bulletVelocity := ch.velocityBullet;
      enemy.attackCapacity := if ch.canAttack then ch.attackCapacity else 0;
      if squadron.Some? {
        enemy.squadron := squadron;
      }
      e := engine.CreateEntity(EnemyKinds(ch.directionable));
    }

    method CreateEnemySoucoupe(squadron: Option<Id>, canAttack: bool, velocityBullet: real) returns (e: Id, enemy: EnemyComponent)
      requires engine.Valid()
      modifies engine
      ensures engine.Valid() && fresh(enemy)
      ensures e == old(engine.nextId) && engine.entities == old(engine.entities) + {e}
      ensures engine.components == old(engine.components)[e := EnemyKinds(false)]
      ensures engine.effects == old(engine.effects) && engine.tasks == old(engine.tasks)
      ensures enemy.points == 100 && enemy.lifeGauge == 1 && enemy.probabilityAttack == k.standardRateShoot
      ensures enemy.attackCapacity == (if canAttack then 1 else 0) && enemy.bulletVelocity == velocityBullet
      ensures enemy.squadron == squadron && !enemy.isBoss && !enemy.isTank && !enemy.isLaserShip
    {
      var ch := EnemyCharacteristics("soucoupe", canAttack, false, k.standardRateShoot, velocityBullet, 100, 1, 1);
      e, enemy := CreateEnemy(squadron, ch);
    }

    method CreateEnemyShip(squadron: Option<Id>, canAttack: bool, velocityBullet: real, rateShoot: int, t: ShipType)
      returns (e: Id, enemy: EnemyComponent)
      requires engine.Valid()
      modifies engine
      ensures engine.Valid() && fresh(enemy)
      ensures e == old(engine.nextId) && engine.entities == old(engine.entities) + {e}
      ensures engine.components == old(engine.components)[e := EnemyKinds(EnemyShipStats(t).directionable)]
      ensures engine.effects == old(engine.effects) && engine.tasks == old(engine.tasks)
      ensures enemy.points == EnemyShipStats(t).points && enemy.lifeGauge == EnemyShipStats(t).strength
      ensures enemy.attackCapacity == if canAttack then EnemyShipStats(t).attackCapacity else 0
      ensures enemy.probabilityAttack == rateShoot && enemy.bulletVelocity == velocityBullet
      ensures enemy.squadron == squadron && !enemy.isBoss && !enemy.isTank && !enemy.isLaserShip
    {
      var s := EnemyShipStats(t);
      var ch := EnemyCharacteristics(s.atlas, canAttack, s.directionable, rateShoot, velocityBullet, s.points, s.strength, s.attackCapacity);
      e, enemy := CreateEnemy(squadron, ch);
    }

    /** `createLaserShip`: unlimited attack capacity, the laser-ship flag, a
        velocity and a follow-player component only when a velocity is given,
        and a start just off the left edge or at the right edge. */
    method CreateLaserShip(t: ShipType, velocity: Option<real>, bulletVelocity: real, rateShoot: int,
                           gaugeLife: int, points: int, fromLeft: bool, spriteWidth: real, spriteHeight: real)
      returns (e: Id, enemy: EnemyComponent, position: PositionComponent, atlas: string)
      requires engine.Valid()
      modifies engine
      ensures engine.Valid() && fresh(enemy) && fresh(position)
      ensures atlas == LaserShipAtlas(t)
      ensures e == old(engine.nextId) && engine.entities == old(engine.entities) + {e}
      ensures engine.components == old(engine.components)[e := LaserShipKinds(velocity.Some?)]
      ensures engine.effects == old(engine.effects) && engine.tasks == old(engine.tasks)
      ensures position.x == (if fromLeft then -spriteWidth else k.screenWidth)
      ensures position.y == k.screenHeight - spriteHeight
      ensures enemy.attackCapacity == INT_MAX && enemy.isLaserShip
      ensures enemy.lifeGauge == gaugeLife && enemy.points == points
      ensures enemy.probabilityAttack == rateShoot && enemy.bulletVelocity == bulletVelocity
      ensures enemy.squadron == None && !enemy.isBoss && !enemy.isTank
    {
      atlas := LaserShipAtlas(t);
      position := new PositionComponent();
      position.SetPosition(if fromLeft then -spriteWidth else k.screenWidth, k.screenHeight - spriteHeight);
      enemy := new EnemyComponent();
      enemy.lifeGauge := gaugeLife;
      enemy.points := points;
      enemy.bulletVelocity := bulletVelocity;
      enemy.attackCapacity := INT_MAX;
      enemy.probabilityAttack := rateShoot;
      enemy.isLaserShip := true;
      e := engine.CreateEntity(LaserShipKinds(velocity.Some?));
    }

    /** `createTank`: the cannon is created first and is the only enemy, yet
        the list returned is [body, cannon]. */
    method CreateTank(levelBulletVelocity: real, gauge: int, points: int)
      returns (entities: seq<Id>, cannon: EnemyComponent)
      requires engine.Valid()
      modifies engine
      ensures engine.Valid() && fresh(cannon)
      ensures entities == [old(engine.nextId) + 1, old(engine.nextId)]
      ensures engine.entities == old(engine.entities) + {entities[0], entities[1]}
      ensures engine.components == old(engine.components)[entities[1] := TankCannonKinds()][entities[0] := TankBodyKinds()]
      ensures Enemy in engine.components[entities[1]] && Enemy !in engine.components[entities[0]]
      ensures engine.effects == old(engine.effects) && engine.tasks == old(engine.tasks)
      ensures cannon.isTank && cannon.attackCapacity == 0 && cannon.probabilityAttack == 1
      ensures cannon.points == points && cannon.lifeGauge == gauge && cannon.bulletVelocity == levelBulletVelocity
      ensures cannon.squadron == None && !cannon.isBoss && !cannon.isLaserShip
    {
      cannon := new EnemyComponent();
      cannon.points := points;
      cannon.isTank := true;
      cannon.lifeGauge := gauge;
      cannon.probabilityAttack := 1;
      cannon.bulletVelocity := levelBulletVelocity;
      cannon.attackCapacity := 0;
      var tankCannon := engine.CreateEntity(TankCannonKinds());
      var tankBody := engine.CreateEntity(TankBodyKinds());
      entities := [tankBody, tankCannon];
    }

    /** The part the three boss constructors share: 50 points, the boss flag,
        unlimited attack capacity, the given squadron, and the first pattern
        armed five seconds later. */
    method CreateBossEntity(squadron: Option<Id>, velocityBullet: real, gauge: int, animated: bool)
      returns (e: Id, enemy: EnemyComponent)
      requires engine.Valid()
      modifies engine
      ensures engine.Valid() && fresh(enemy)
      ensures e == old(engine.nextId) && engine.entities == old(engine.entities) + {e}
      ensures engine.components == old(engine.components)[e := BossKinds(animated)]
      ensures engine.effects == old(engine.effects)
      ensures engine.tasks == old(engine.tasks) + [Task(After(5.0), ArmFire1(e))]
      ensures enemy.points == 50 && enemy.isBoss && enemy.attackCapacity == INT_MAX
      ensures enemy.lifeGauge == gauge && enemy.bulletVelocity == velocityBullet && enemy.squadron == squadron
      ensures !enemy.isTank && !enemy.isLaserShip
    {
      enemy := new EnemyComponent();
      enemy.points := 50;
      enemy.isBoss := true;
      enemy.lifeGauge := gauge;
      enemy.bulletVelocity := velocityBullet;
      enemy.attackCapacity := INT_MAX;
      if squadron.Some? {
        enemy.squadron := squadron;
      }
      e := engine.CreateEntity(BossKinds(animated));
      engine.Schedule(Task(After(5.0), ArmFire1(e)));
    }

    method CreateBoss(squadron: Option<Id>, velocityBullet: real, velocityCircle: real)
      returns (e: Id, enemy: EnemyComponent, boss: BossComponent)
      requires engine.Valid()
      modifies engine
      ensures engine.Valid() && fresh(enemy) && fresh(boss)
      ensures e == old(engine.nextId) && engine.entities == old(engine.entities) + {e}
      ensures engine.components == old(engine.components)[e := BossKinds(false)]
      ensures engine.tasks == old(engine.tasks) + [Task(After(5.0), ArmFire1(e))]
      ensures engine.effects == old(engine.effects)
      ensures enemy.points == 50 && enemy.isBoss && enemy.attackCapacity == INT_MAX
      ensures enemy.lifeGauge == k.bossLevel1Gauge && enemy.squadron == squadron && enemy.bulletVelocity == velocityBullet
      ensures !enemy.isTank && !enemy.isLaserShip
      ensures boss.velocityFire1 == velocityCircle && !boss.pleaseFire1 && !boss.pleaseFire2
      ensures boss.minTriggerFire1 == k.bossMinTrigger1 && boss.minTriggerFire2 == k.bossMinTrigger2
    {
      boss := new BossComponent(k.bossMinTrigger1, k.bossMinTrigger2);
      boss.velocityFire1 := velocityCircle;
      e, enemy := CreateBossEntity(squadron, velocityBullet, k.bossLevel1Gauge, false);
    }

    /** `createBoss2`: trigger intervals 4 s and 7 s; pattern 1 armed after
        5 s and pattern 2 after 2 s. */
    method CreateBoss2(squadron: Option<Id>, velocityBullet: real, velocityFireCircle: real, velocityBullet2: real)
      returns (e: Id, enemy: EnemyComponent, boss: BossComponent)
      requires engine.Valid()
      modifies engine
      ensures engine.Valid() && fresh(enemy) && fresh(boss)
      ensures e == old(engine.nextId) && engine.entities == old(engine.entities) + {e}
      ensures engine.components == old(engine.components)[e := BossKinds(false)]
      ensures engine.tasks == old(engine.tasks) + [Task(After(5.0), ArmFire1(e)), Task(After(2.0), ArmFire2(e))]
      ensures engine.effects == old(engine.effects)
      ensures enemy.points == 50 && enemy.isBoss && enemy.attackCapacity == INT_MAX
      ensures enemy.lifeGauge == k.bossLevel2Gauge && enemy.squadron == squadron && enemy.bulletVelocity == velocityBullet
      ensures !enemy.isTank && !enemy.isLaserShip
      ensures boss.minTriggerFire1 == 4.0 && boss.minTriggerFire2 == 7.0 && !boss.pleaseFire1 && !boss.pleaseFire2
      ensures boss.velocityFire1 == velocityFireCircle && boss.velocityFire2 == velocityBullet2
    {
      boss := new BossComponent(4.0, 7.0);
      boss.velocityFire1 := velocityFireCircle;
      boss.velocityFire2 := velocityBullet2;
      e, enemy := CreateBossEntity(squadron, velocityBullet, k.bossLevel2Gauge, false);
      engine.Schedule(Task(After(2.0), ArmFire2(e)));
    }

    /** `createBoss3`: trigger intervals 3 s and 7 s, an animation, and only
        pattern 1 ever armed. */
    method CreateBoss3(squadron: Option<Id>, velocityBullet: real, velocityFireCircle: real, velocityBullet2: real)
      returns (e: Id, enemy: EnemyComponent, boss: BossComponent)
      requires engine.Valid()
      modifies engine
      ensures engine.Valid() && fresh(enemy) && fresh(boss)
      ensures e == old(engine.nextId) && engine.entities == old(engine.entities) + {e}
      ensures engine.components == old(engine.components)[e := BossKinds(true)]
      ensures engine.tasks == old(engine.tasks) + [Task(After(5.0), ArmFire1(e))]
      ensures engine.effects == old(engine.effects)
      ensures enemy.points == 50 && enemy.isBoss && enemy.attackCapacity == INT_MAX
      ensures enemy.lifeGauge == k.bossLevel3Gauge && enemy.squadron == squadron && enemy.bulletVelocity == velocityBullet
      ensures !enemy.isTank && !enemy.isLaserShip
      ensures boss.minTriggerFire1 == 3.0 && boss.minTriggerFire2 == 7.0 && !boss.pleaseFire1 && !boss.pleaseFire2
      ensures boss.velocityFire1 == velocityFireCircle && boss.velocityFire2 == velocityBullet2
    {
      boss := new BossComponent(3.0, 7.0);
      boss.velocityFire1 := velocityFireCircle;
      boss.velocityFire2 := velocityBullet2;
      e, enemy := CreateBossEntity(squadron, velocityBullet, k.bossLevel3Gauge, true);
    }

    /** `createHouse`: a house worth 50 points followed by its ruin, the ruin
        being no enemy. */
    method CreateHouse(squadron: Option<Id>, houseType: int)
      returns (entities: seq<Id>, enemy: EnemyComponent, houseSprite: string, ruinSprite: string)
      requires engine.Valid()
      modifies engine
      ensures engine.Valid() && fresh(enemy)
      ensures entities == [old(engine.nextId), old(engine.nextId) + 1]
      ensures engine.entities == old(engine.entities) + {entities[0], entities[1]}
      ensures engine.components == old(engine.components)[entities[0] := {Enemy, Position, GroundEnemy, Sprite}]
                                                          [entities[1] := {Position, GroundEnemy, Sprite}]
      ensures engine.effects == old(engine.effects) && engine.tasks == old(engine.tasks)
      ensures houseSprite == HouseRegion(houseType, k.house1)
      ensures ruinSprite == DestroyedHouseRegion(houseType, k.house1)
      ensures enemy.points == 50 && enemy.squadron == squadron
      ensures !enemy.isBoss && !enemy.isTank && !enemy.isLaserShip
    {
      enemy := new EnemyComponent();
      enemy.points := 50;
      if squadron.Some? {
        enemy.squadron := squadron;
      }
      houseSprite := HouseRegion(houseType, k.house1);
      var house := engine.CreateEntity({Enemy, Position, GroundEnemy, Sprite});
      ruinSprite := "house-" + IntToString(houseType - k.house1 + 1) + "_destroyed";
      var ruin := engine.CreateEntity({Position, GroundEnemy, Sprite});
      entities := [house, ruin];
    }

    /** `createBossExploding`: fifty explosion bursts, one every 0.1 s from now. */
    method CreateBossExploding(boss: Id)
      requires engine.Valid()
      modifies engine
      ensures engine.Valid()
      ensures engine.tasks == old(engine.tasks) + BurstTasks(boss, 50)
      ensures engine.entities == old(engine.entities) && engine.components == old(engine.components)
      ensures engine.effects == old(engine.effects) && engine.nextId == old(engine.nextId)
    {
      var i := 0;
      while i < 50
        invariant 0 <= i <= 50 && engine.Valid()
        invariant engine.tasks == old(engine.tasks) + BurstTasks(boss, i)
        invariant engine.entities == old(engine.entities) && engine.components == old(engine.components)
        invariant engine.effects == old(engine.effects) && engine.nextId == old(engine.nextId)
      {
        engine.Schedule(Task(After(i as real * 0.1), ExplosionBurst(boss)));
        i := i + 1;
      }
    }

    /** `createSquadron`: the three reward settings are copied unchanged. */
    method CreateSquadron(powerUp: bool, displayScoreBonus: bool, bonus: int) returns (e: Id, squadron: SquadronComponent)
      requires engine.Valid()
      modifies engine
      ensures engine.Valid() && fresh(squadron)
      ensures e == old(engine.nextId) && engine.entities == old(engine.entities) + {e}
      ensures engine.components == old(engine.components)[e := {Squadron}]
      ensures engine.effects == old(engine.effects) && engine.tasks == old(engine.tasks)
      ensures squadron.powerUpAfterDestruction == powerUp && squadron.displayBonusSquadron == displayScoreBonus
      ensures squadron.scoreBonus == bonus && squadron.ships == {} && squadron.toShoot == 0
    {
      squadron := new SquadronComponent();
      squadron.powerUpAfterDestruction := powerUp;
      squadron.displayBonusSquadron := displayScoreBonus;
      squadron.scoreBonus := bonus;
      e := engine.CreateEntity({Squadron});
    }

    /** `createScoreSquadron`: the floating label showing a squadron's bonus. */
    method CreateScoreSquadron(squadron: Id) returns (e: Id)
      requires engine.Valid()
      modifies engine
      ensures engine.Valid()
      ensures e == old(engine.nextId) && engine.entities == old(engine.entities) + {e}
      ensures engine.components == old(engine.components)[e := {Position, ScoreSquadron}]
      ensures engine.effects == old(engine.effects) && engine.tasks == old(engine.tasks)
    {
      e := engine.CreateEntity({Position, ScoreSquadron});
    }
  }

  function EnemyKinds(directionable: bool): set<Kind>
  {
    {Enemy, Position, Animation, Sprite, State} + (if directionable then {Directionable} else {})
  }

  function LaserShipKinds(moving: bool): set<Kind>
  {
    {Position, Animation, Sprite, Enemy, State} + (if moving then {Velocity, FollowPlayer} else {})
  }

  function TankCannonKinds(): set<Kind> { {Enemy, Position, Sprite, GroundEnemy, FollowPlayer, Tank} }

  function TankBodyKinds(): set<Kind> { {Position, Sprite, GroundEnemy} }

  function BossKinds(animated: bool): set<Kind>
  {
    {Boss, StatusHealth, Enemy, Position, Sprite} + (if animated then {Animation, State} else {})
  }
}
