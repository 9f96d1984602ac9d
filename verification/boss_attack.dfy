/** The boss's two attack patterns. Each pattern has a `pleaseFire` flag:
    a frame that finds the flag set fires the pattern, lowers the flag and
    schedules a task that raises it again a few seconds later if the boss is
    still alive. */
module BossAttack {
  import opened Java
  import opened Ecs
  import opened Components

  datatype BossFlags = BossFlags(fire1: bool, fire2: bool)

  /** What one frame does: the new flags, the fire calls made, and the
      re-arm tasks scheduled. */
  datatype AttackOutcome = AttackOutcome(flags: BossFlags, effects: seq<Effect>, tasks: seq<Task>)

  /** Whether a delay lies in the window [minTrigger, minTrigger + 2) that
      `minTrigger + random.nextFloat() * 2` ranges over. */
  predicate InRearmWindow(delay: real, minTrigger: real)
  {
    minTrigger <= delay < minTrigger + 2.0
  }

  /** `processEntity` over the boss's state. `player` is the first player
      entity without a pause component, if any; `jitter1`, `jitter2` stand for
      `random.nextFloat() * 2` in the two re-arm delays. */
  function Attack(entity: Id, flags: BossFlags, dead: bool, player: Option<Id>,
                  minTrigger1: real, minTrigger2: real, jitter1: real, jitter2: real): (r: AttackOutcome)
    requires 0.0 <= jitter1 < 2.0 && 0.0 <= jitter2 < 2.0
    // no player, or a dead boss: nothing changes
    ensures player.None? || dead ==> r == AttackOutcome(flags, [], [])
    // a live boss facing a player ends the frame with both flags down
    ensures player.Some? && !dead ==> r.flags == BossFlags(false, false)
    // each pattern fires exactly when its flag was up, pattern 1 first
    ensures player.Some? && !dead ==>
      r.effects == (if flags.fire1 then [BossFire(entity, player.value)] else [])
                 + (if flags.fire2 then [BossFire2(entity)] else [])
    // one re-arm task per fired pattern, its delay inside the pattern's window
    ensures |r.tasks| == |r.effects|
    ensures forall i | 0 <= i < |r.tasks| ::
      match r.tasks[i].action
      case RearmFire1(b) => b == entity && r.effects[i] == BossFire(entity, player.value)
                            && r.tasks[i].trigger.After? && InRearmWindow(r.tasks[i].trigger.seconds, minTrigger1)
      case RearmFire2(b) => b == entity && r.effects[i] == BossFire2(entity)
                            && r.tasks[i].trigger.After? && InRearmWindow(r.tasks[i].trigger.seconds, minTrigger2)
      case _ => false
  {
    if player.None? then AttackOutcome(flags, [], [])
    else if flags.fire1 && dead then AttackOutcome(flags, [], [])
    else
      var first :=
        if flags.fire1 then AttackOutcome(BossFlags(false, flags.fire2), [BossFire(entity, player.value)],
                                          [Task(After(minTrigger1 + jitter1), RearmFire1(entity))])
        else AttackOutcome(flags, [], []);
      if first.flags.fire2 && dead then first
      else if first.flags.fire2 then
        AttackOutcome(BossFlags(first.flags.fire1, false), first.effects + [BossFire2(entity)],
                      first.tasks + [Task(After(minTrigger2 + jitter2), RearmFire2(entity))])
      else first
  }

  /** Running a pending task that raises a flag. The factory's first arming
      is unconditional; the attack system's re-arming checks the boss's health,
      and for pattern 1 also that the enemy component still exists. */
  function RunArming(a: Action, flags: BossFlags, enemyPresent: bool, dead: bool): (r: BossFlags)
    requires a.ArmFire1? || a.ArmFire2? || a.RearmFire1? || a.RearmFire2?
    requires a.RearmFire2? ==> enemyPresent
    ensures r.fire1 <==> flags.fire1 || a.ArmFire1? || (a.RearmFire1? && enemyPresent && !dead)
    ensures r.fire2 <==> flags.fire2 || a.ArmFire2? || (a.RearmFire2? && !dead)
  {
    match a
    case ArmFire1(_) => flags.(fire1 := true)
    case ArmFire2(_) => flags.(fire2 := true)
    case RearmFire1(_) => if enemyPresent && !dead then flags.(fire1 := true) else flags
    case RearmFire2(_) => if !dead then flags.(fire2 := true) else flags
  }

  /** What happens to a boss over time: frames of the attack system, and
      pending arming tasks coming due. */
  datatype BossEvent =
    | Frame(player: Option<Id>, jitter1: real, jitter2: real)
    | TaskDue(action: Action, enemyPresent: bool)

  predicate ValidEvent(ev: BossEvent)
  {
    match ev
    case Frame(_, j1, j2) => 0.0 <= j1 < 2.0 && 0.0 <= j2 < 2.0
    case TaskDue(a, present) =>
      (a.ArmFire1? || a.ArmFire2? || a.RearmFire1? || a.RearmFire2?) && (a.RearmFire2? ==> present)
  }

  /** The flags and the fire calls after one event. */
  function Step(entity: Id, flags: BossFlags, dead: bool, minTrigger1: real, minTrigger2: real,
                ev: BossEvent): (BossFlags, seq<Effect>)
    requires ValidEvent(ev)
  {
    match ev
    case Frame(p, j1, j2) =>
      var o := Attack(entity, flags, dead, p, minTrigger1, minTrigger2, j1, j2);
      (o.flags, o.effects)
    case TaskDue(a, present) => (RunArming(a, flags, present, dead), [])
  }

  /** The flags and the fire calls after a run of events. */
  function Replay(entity: Id, flags: BossFlags, dead: bool, minTrigger1: real, minTrigger2: real,
                  evs: seq<BossEvent>): (BossFlags, seq<Effect>)
    requires forall i | 0 <= i < |evs| :: ValidEvent(evs[i])
    decreases |evs|
  {
    if evs == [] then (flags, [])
    else
      var (next, fs) := Step(entity, flags, dead, minTrigger1, minTrigger2, evs[0]);
      var (last, rest) := Replay(entity, next, dead, minTrigger1, minTrigger2, evs[1..]);
      (last, fs + rest)
  }

  /** Once the boss is dead it never fires again, whatever runs; and unless
      the factory's unconditional arming runs, no flag goes up. */
  lemma {:induction false} DeadBossStaysSilent(entity: Id, flags: BossFlags, minTrigger1: real, minTrigger2: real,
                                               evs: seq<BossEvent>)
    requires forall i | 0 <= i < |evs| :: ValidEvent(evs[i])
    ensures Replay(entity, flags, true, minTrigger1, minTrigger2, evs).1 == []
    ensures (forall i | 0 <= i < |evs| :: !(evs[i].TaskDue? && (evs[i].action.ArmFire1? || evs[i].action.ArmFire2?)))
      ==> Replay(entity, flags, true, minTrigger1, minTrigger2, evs).0 == flags
    decreases |evs|
  {
    if evs != [] {
      var next := Step(entity, flags, true, minTrigger1, minTrigger2, evs[0]).0;
      DeadBossStaysSilent(entity, next, minTrigger1, minTrigger2, evs[1..]);
      assert forall i | 1 <= i < |evs| :: evs[1..][i - 1] == evs[i];
    }
  }

  class BossAttackSystem {
    const engine: Engine

    constructor (engine: Engine)
      ensures this.engine == engine
    {
      this.engine := engine;
    }

    /** `processEntity` for a boss entity. */
    method ProcessEntity(entity: Id, boss: BossComponent, enemy: EnemyComponent, player: Option<Id>,
                         jitter1: real, jitter2: real)
      requires engine.Valid()
      requires 0.0 <= jitter1 < 2.0 && 0.0 <= jitter2 < 2.0
      modifies boss, engine
      ensures engine.Valid()
      ensures var r := Attack(entity, BossFlags(old(boss.pleaseFire1), old(boss.pleaseFire2)), enemy.IsDead(), player,
                              boss.minTriggerFire1, boss.minTriggerFire2, jitter1, jitter2);
        && BossFlags(boss.pleaseFire1, boss.pleaseFire2) == r.flags
        && engine.effects == old(engine.effects) + r.effects
        && engine.tasks == old(engine.tasks) + r.tasks
      ensures engine.entities == old(engine.entities) && engine.components == old(engine.components)
      ensures engine.nextId == old(engine.nextId)
      ensures boss.minTriggerFire1 == old(boss.minTriggerFire1) && boss.minTriggerFire2 == old(boss.minTriggerFire2)
      ensures boss.velocityFire1 == old(boss.velocityFire1) && boss.velocityFire2 == old(boss.velocityFire2)
    {
      if player.None? {
        return;
      }
      if boss.pleaseFire1 {
        if enemy.IsDead() {
          return;
        }
        engine.Emit(BossFire(entity, player.value));
        boss.pleaseFire1 := false;
        engine.Schedule(Task(After(boss.minTriggerFire1 + jitter1), RearmFire1(entity)));
      }
      if boss.pleaseFire2 {
        if enemy.IsDead() {
          return;
        }
        engine.Emit(BossFire2(entity));
        boss.pleaseFire2 := false;
        engine.Schedule(Task(After(boss.minTriggerFire2 + jitter2), RearmFire2(entity)));
      }
    }

    /** A boss's pending arming task coming due. `enemy` is null when the
        enemy component has been taken off the entity; the pattern-2 re-arm
        reads it without a check, so it needs the component. */
    method RunArmingTask(a: Action, boss: BossComponent, enemy: EnemyComponent?)
      requires a.ArmFire1? || a.ArmFire2? || a.RearmFire1? || a.RearmFire2?
      requires a.RearmFire2? ==> enemy != null
      modifies boss
      ensures BossFlags(boss.pleaseFire1, boss.pleaseFire2)
        == RunArming(a, BossFlags(old(boss.pleaseFire1), old(boss.pleaseFire2)), enemy != null, enemy != null && enemy.IsDead())
      ensures boss.minTriggerFire1 == old(boss.minTriggerFire1) && boss.minTriggerFire2 == old(boss.minTriggerFire2)
      ensures boss.velocityFire1 == old(boss.velocityFire1) && boss.velocityFire2 == old(boss.velocityFire2)
    {
      match a
      case ArmFire1(_) => boss.pleaseFire1 := true;
      case ArmFire2(_) => boss.pleaseFire2 := true;
      case RearmFire1(_) =>
        if enemy != null && !enemy.IsDead() {
          boss.pleaseFire1 := true;
        }
      case RearmFire2(_) =>
        if !enemy.IsDead() {
          boss.pleaseFire2 := true;
        }
    }
  }
}
