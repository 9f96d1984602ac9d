/** The component records the core systems read and write. Their own source
    files are not part of this model: each holds the fields the core uses,
    with Java's default field values, and the two helper operations the core
    calls (EnemyComponent.hit/isDead, SquadronComponent.removeEntity). */
module Components {
  import opened Ecs
  import opened Java

  class EnemyComponent {
    var points: int
    var lifeGauge: int
    var probabilityAttack: int
    var bulletVelocity: real
    var attackCapacity: int
    var squadron: Option<Id>
    var isBoss: bool
    var isTank: bool
    var isLaserShip: bool

    constructor ()
      ensures points == 0 && lifeGauge == 0 && probabilityAttack == 0 && bulletVelocity == 0.0
      ensures attackCapacity == 0 && squadron == None && !isBoss && !isTank && !isLaserShip
    {
      points, lifeGauge, probabilityAttack, bulletVelocity := 0, 0, 0, 0.0;
      attackCapacity, squadron := 0, None;
      isBoss, isTank, isLaserShip := false, false, false;
    }

    /** Death is a life gauge at or below zero. */
    predicate IsDead()
      reads this
    {
      lifeGauge <= 0
    }

    /** One hit removes one point of life. */
    method Hit()
      modifies this
      ensures lifeGauge == old(lifeGauge) - 1
      ensures points == old(points) && attackCapacity == old(attackCapacity) && squadron == old(squadron)
      ensures isBoss == old(isBoss) && isTank == old(isTank) && isLaserShip == old(isLaserShip)
      ensures probabilityAttack == old(probabilityAttack) && bulletVelocity == old(bulletVelocity)
    {
      lifeGauge := lifeGauge - 1;
    }
  }

  class SquadronComponent {
    var ships: set<Id>
    var toShoot: int
    var powerUpAfterDestruction: bool
    var displayBonusSquadron: bool
    var scoreBonus: int

    constructor ()
      ensures ships == {} && toShoot == 0 && !powerUpAfterDestruction && !displayBonusSquadron && scoreBonus == 0
    {
      ships, toShoot := {}, 0;
      powerUpAfterDestruction, displayBonusSquadron, scoreBonus := false, false, 0;
    }

    /** A member leaves the squadron. */
    method RemoveEntity(e: Id)
      modifies this
      ensures ships == old(ships) - {e}
      ensures toShoot == old(toShoot) && scoreBonus == old(scoreBonus)
      ensures powerUpAfterDestruction == old(powerUpAfterDestruction)
      ensures displayBonusSquadron == old(displayBonusSquadron)
    {
      ships := ships - {e};
    }
  }

  class BossComponent {
    var pleaseFire1: bool
    var pleaseFire2: bool
    var minTriggerFire1: real
    var minTriggerFire2: real
    var velocityFire1: real
    var velocityFire2: real

    /** The trigger intervals a fresh component starts with are not part of
        this model, so they are given. */
    constructor (minTrigger1: real, minTrigger2: real)
      ensures !pleaseFire1 && !pleaseFire2
      ensures minTriggerFire1 == minTrigger1 && minTriggerFire2 == minTrigger2
      ensures velocityFire1 == 0.0 && velocityFire2 == 0.0
    {
      pleaseFire1, pleaseFire2 := false, false;
      minTriggerFire1, minTriggerFire2 := minTrigger1, minTrigger2;
      velocityFire1, velocityFire2 := 0.0, 0.0;
    }
  }

  class VelocityComponent {
    var x: real
    var y: real

    constructor ()
      ensures x == 0.0 && y == 0.0
    {
      x, y := 0.0, 0.0;
    }
  }
}
