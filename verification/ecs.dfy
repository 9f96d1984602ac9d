/** The entity engine the game systems run on, reduced to what the core
    observes: which entity ids are live, which component kinds each one
    carries, the calls made into collaborators whose bodies are not part of
    this model, and the tasks waiting on the pausable timer. */
module Ecs {

  type Id = nat

  /** The game's levels. */
  datatype Level = Level1 | Level2 | Level3

  /** Component classes an entity can carry; a system's family is a
      condition on this set. */
  datatype Kind =
    | Position | Velocity | Animation | Sprite | State | Enemy | Boss | Squadron
    | Tank | FollowPlayer | GroundEnemy | Directionable | StatusHealth | ScoreSquadron

  /** The three bonus pickups a squadron can leave behind. */
  datatype Reward = PowerUpReward | ShieldUpReward | BombUpReward

  /** A call into a collaborator (bonus factory, player listener, enemy
      action factory, effects), recorded in the order it is made. */
  datatype Effect =
    | RewardCreated(reward: Reward, squadron: Id)
    | ScoreAwarded(player: Id, points: int)
    | ScoreForEnemy(player: Id, enemy: Id)
    | LifeLost(player: Id)
    | BossFire(boss: Id, target: Id)
    | BossFire2(boss: Id)
    | Explosion(x: real, y: real)
    | AchievementsChecked(player: Id)
    | TweensKilled(target: Id)
    | BossExplosionsStarted(boss: Id)
    | ShieldCreated(player: Id)

  /** When a pending task runs: after a delay in seconds on the pausable
      timer, or when a tween timeline completes. */
  datatype Trigger = After(seconds: real) | OnTimelineComplete

  /** What a pending task does when it runs. */
  datatype Action =
    | RemoveEntity(target: Id)
    | ArmFire1(boss: Id)        // the boss factory's first arming, unconditional
    | ArmFire2(boss: Id)
    | RearmFire1(boss: Id)      // the attack system's re-arming, guarded by the boss's health
    | RearmFire2(boss: Id)
    | ExplosionBurst(boss: Id)

  datatype Task = Task(trigger: Trigger, action: Action)

  class Engine {
    var entities: set<Id>
    var components: map<Id, set<Kind>>
    var nextId: Id
    var effects: seq<Effect>
    var tasks: seq<Task>

    /** Every id in use was handed out by CreateEntity, so a new id is never
        confused with an old one. */
    ghost predicate Valid()
      reads this
    {
      && (forall e | e in entities :: e < nextId)
      && (forall e | e in components :: e < nextId)
    }

    constructor ()
      ensures Valid()
      ensures entities == {} && components == map[] && effects == [] && tasks == []
    {
      entities, components, nextId := {}, map[], 0;
      effects, tasks := [], [];
    }

    /** `engine.createEntity()`, its components, then `engine.addEntity(e)`. */
    method CreateEntity(kinds: set<Kind>) returns (e: Id)
      requires Valid()
      modifies this
      ensures Valid()
      ensures e == old(nextId) && e !in old(entities) && e !in old(components)
      ensures entities == old(entities) + {e} && components == old(components)[e := kinds]
      ensures nextId == e + 1 && effects == old(effects) && tasks == old(tasks)
    {
      e := nextId;
      entities := entities + {e};
      components := components[e := kinds];
      nextId := nextId + 1;
    }

    /** `engine.removeEntity(e)`: the entity leaves every family and its
        components go back to their pools. */
    method RemoveEntity(e: Id)
      requires Valid()
      modifies this
      ensures Valid()
      ensures entities == old(entities) - {e} && components == old(components) - {e}
      ensures nextId == old(nextId) && effects == old(effects) && tasks == old(tasks)
    {
      entities := entities - {e};
      components := components - {e};
    }

    method Emit(f: Effect)
      requires Valid()
      modifies this
      ensures Valid()
      ensures effects == old(effects) + [f]
      ensures entities == old(entities) && components == old(components)
      ensures nextId == old(nextId) && tasks == old(tasks)
    {
      effects := effects + [f];
    }

    /** `PausableTimer.schedule(task, delay)` or a tween callback. */
    method Schedule(t: Task)
      requires Valid()
      modifies this
      ensures Valid()
      ensures tasks == old(tasks) + [t]
      ensures entities == old(entities) && components == old(components)
      ensures nextId == old(nextId) && effects == old(effects)
    {
      tasks := tasks + [t];
    }
  }
}
