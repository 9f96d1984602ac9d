/** The system that watches squadrons: once every ship of a squadron is
    gone, the squadron entity is removed and, if the player shot all of its
    ships, it may leave a bonus pickup and award a bonus score. */
module SquadronSystem {
  import opened Java
  import opened Ecs
  import opened Components
  import opened EnemyFactory

  const THRESHOLD_POWER_UP_DEFAULT: int := 17
  const THRESHOLD_SHIELD_DEFAULT: int := 21
  /** `random.nextInt(22)` draws from [0, DRAW_RANGE). */
  const DRAW_RANGE: int := 22
  /** Seconds the score label stays on screen. */
  const SCORE_LABEL_SECONDS: real := 1.5

  /** The power-up and shield thresholds the constructor picks for a level. */
  function Thresholds(level: Level): (t: (int, int))
    ensures 0 < t.0 < t.1 < DRAW_RANGE
    ensures level != Level3 ==> t == (THRESHOLD_POWER_UP_DEFAULT, THRESHOLD_SHIELD_DEFAULT)
  {
    if level == Level3 then (14, 20) else (THRESHOLD_POWER_UP_DEFAULT, THRESHOLD_SHIELD_DEFAULT)
  }

  /** The reward a draw selects: below the power-up threshold a power-up,
      then a shield up to the shield threshold, and a bomb above. */
  function ChooseReward(draw: int, tp: int, ts: int): Reward
  {
    if draw < tp then PowerUpReward else if draw < ts then ShieldUpReward else BombUpReward
  }

  /** How many of the draws 0 .. n-1 select reward `r`. */
  function CountDraws(n: nat, tp: int, ts: int, r: Reward): nat
  {
    if n == 0 then 0
    else CountDraws(n - 1, tp, ts, r) + (if ChooseReward(n - 1, tp, ts) == r then 1 else 0)
  }

  function Min(a: int, b: int): int { if a < b then a else b }

  /** Among the first n draws, the power-up takes those below tp, the
      shield those in [tp, ts) and the bomb the rest. */
  lemma {:induction false} CountDrawsClosedForm(n: nat, tp: nat, ts: nat)
    requires tp <= ts
    ensures CountDraws(n, tp, ts, PowerUpReward) == Min(n, tp)
    ensures CountDraws(n, tp, ts, ShieldUpReward) == Min(n, ts) - Min(n, tp)
    ensures CountDraws(n, tp, ts, BombUpReward) == n - Min(n, ts)
  {
    if n > 0 {
      CountDrawsClosedForm(n - 1, tp, ts);
    }
  }

  /** The reward odds out of 22: 17/4/1 by default and 14/6/2 on level 3. */
  lemma RewardWeights(level: Level)
    ensures var (tp, ts) := Thresholds(level);
      var w := (CountDraws(22, tp, ts, PowerUpReward), CountDraws(22, tp, ts, ShieldUpReward),
                CountDraws(22, tp, ts, BombUpReward));
      w == if level == Level3 then (14, 6, 2) else (17, 4, 1)
  {
    var (tp, ts) := Thresholds(level);
    CountDrawsClosedForm(22, tp, ts);
  }

  /** What the system reads from a squadron component. */
  datatype SquadronState = SquadronState(
    ships: set<Id>, toShoot: int, powerUpAfterDestruction: bool,
    displayBonusSquadron: bool, scoreBonus: int)

  /** The collaborator calls one pass over a squadron makes: none while
      ships remain or when some ship escaped; otherwise a reward chosen by the
      draw if the squadron carries one, then the bonus score if it shows one. */
  function DepletionEffects(entity: Id, s: SquadronState, draw: int, tp: int, ts: int, player: Id): (fs: seq<Effect>)
    ensures |fs| <= 2
    ensures fs != [] ==> s.ships == {} && s.toShoot == 0
    ensures RewardCreated(ChooseReward(draw, tp, ts), entity) in fs
        <==> s.ships == {} && s.toShoot == 0 && s.powerUpAfterDestruction
    ensures ScoreAwarded(player, s.scoreBonus) in fs <==> s.ships == {} && s.toShoot == 0 && s.displayBonusSquadron
    ensures forall i | 0 <= i < |fs| :: fs[i].RewardCreated? ==> i == 0 && fs[i].squadron == entity
  {
    if s.ships != {} || s.toShoot != 0 then []
    else
      (if s.powerUpAfterDestruction then [RewardCreated(ChooseReward(draw, tp, ts), entity)] else [])
      + (if s.displayBonusSquadron then [ScoreAwarded(player, s.scoreBonus)] else [])
  }

  /** Number of rewards created in a log. */
  function RewardCount(fs: seq<Effect>): nat
  {
    if fs == [] then 0 else RewardCount(fs[..|fs| - 1]) + (if fs[|fs| - 1].RewardCreated? then 1 else 0)
  }

  lemma {:induction false} RewardCountAppend(a: seq<Effect>, b: seq<Effect>)
    ensures RewardCount(a + b) == RewardCount(a) + RewardCount(b)
    decreases |b|
  {
    if b != [] {
      assert (a + b)[..|a + b| - 1] == a + b[..|b| - 1];
      assert (a + b)[|a + b| - 1] == b[|b| - 1];
      RewardCountAppend(a, b[..|b| - 1]);
    } else {
      assert a + b == a;
    }
  }

  /** One frame of the system over a squadron: a squadron still in the
      engine is processed; once depleted it leaves the engine. */
  function Frame(present: bool, s: SquadronState, entity: Id, draw: int, tp: int, ts: int, player: Id): (r: (bool, seq<Effect>))
  {
    if !present then (false, [])
    else if s.ships != {} then (true, [])
    else (false, DepletionEffects(entity, s, draw, tp, ts, player))
  }

  /** The effects of a run of frames, each seeing the squadron in some
      state and drawing some number. */
  function Run(present: bool, states: seq<SquadronState>, draws: seq<int>, entity: Id, tp: int, ts: int, player: Id): seq<Effect>
    requires |states| == |draws|
  {
    if states == [] then []
    else
      var (p, fs) := Frame(present, states[0], entity, draws[0], tp, ts, player);
      fs + Run(p, states[1..], draws[1..], entity, tp, ts, player)
  }

  /** Because the squadron leaves the engine in the same pass that grants
      its reward, however its state evolves it grants at most one reward. */
  lemma {:induction false} RewardGrantedAtMostOnce(present: bool, states: seq<SquadronState>, draws: seq<int>,
                                                   entity: Id, tp: int, ts: int, player: Id)
    requires |states| == |draws|
    ensures RewardCount(Run(present, states, draws, entity, tp, ts, player)) <= 1
    ensures !present ==> Run(present, states, draws, entity, tp, ts, player) == []
  {
    if states != [] {
      var (p, fs) := Frame(present, states[0], entity, draws[0], tp, ts, player);
      var rest := Run(p, states[1..], draws[1..], entity, tp, ts, player);
      RewardGrantedAtMostOnce(p, states[1..], draws[1..], entity, tp, ts, player);
      RewardCountAppend(fs, rest);
      if present && states[0].ships == {} {
        assert rest == [];
        RewardCountAtMostOne(fs, entity);
      }
    }
  }

  /** A log whose rewards all sit at index 0 holds at most one. */
  lemma {:induction false} RewardCountAtMostOne(fs: seq<Effect>, entity: Id)
    requires forall i | 0 <= i < |fs| :: fs[i].RewardCreated? ==> i == 0
    ensures RewardCount(fs) <= 1
    ensures |fs| > 0 && !fs[0].RewardCreated? ==> RewardCount(fs) == 0
    decreases |fs|
  {
    if |fs| > 1 {
      RewardCountAtMostOne(fs[..|fs| - 1], entity);
    }
  }

  class SquadronSystem {
    const thresholdPowerUp: int
    const thresholdShield: int
    const player: Id
    const factory: EnemyEntityFactory

    constructor (level: Level, factory: EnemyEntityFactory, player: Id)
      ensures (thresholdPowerUp, thresholdShield) == Thresholds(level)
      ensures this.factory == factory && this.player == player
    {
      var t := Thresholds(level);
      thresholdPowerUp, thresholdShield := t.0, t.1;
      this.factory := factory;
      this.player := player;
    }

    /** `processEntity` for a squadron of the engine's squadron family.
        `draw` stands for `random.nextInt(22)`. */
    method ProcessEntity(entity: Id, squadron: SquadronComponent, draw: int)
      requires factory.engine.Valid() && entity in factory.engine.entities
      requires 0 <= draw < DRAW_RANGE
      modifies factory.engine
      ensures factory.engine.Valid()
      // a squadron with ships left is not touched
      ensures squadron.ships != {} ==> unchanged(factory.engine)
      // an empty squadron always leaves the engine, whatever its flags
      ensures squadron.ships == {} ==> entity !in factory.engine.entities
      ensures factory.engine.effects == old(factory.engine.effects)
        + DepletionEffects(entity, SquadronState(squadron.ships, squadron.toShoot, squadron.powerUpAfterDestruction,
                                                 squadron.displayBonusSquadron, squadron.scoreBonus),
                           draw, thresholdPowerUp, thresholdShield, player)
      ensures var scoreLabel := old(factory.engine.nextId);
        if squadron.ships == {} && squadron.toShoot == 0 && squadron.displayBonusSquadron then
          && factory.engine.entities == old(factory.engine.entities) - {entity} + {scoreLabel}
          && factory.engine.components == (old(factory.engine.components) - {entity})[scoreLabel := {Position, ScoreSquadron}]
          && factory.engine.tasks == old(factory.engine.tasks) + [Task(After(SCORE_LABEL_SECONDS), RemoveEntity(scoreLabel))]
        else if squadron.ships == {} then
          && factory.engine.entities == old(factory.engine.entities) - {entity}
          && factory.engine.components == old(factory.engine.components) - {entity}
          && factory.engine.tasks == old(factory.engine.tasks)
        else true
    {
      var engine := factory.engine;
      if squadron.ships == {} {
        engine.RemoveEntity(entity);
        if squadron.toShoot == 0 {
          if squadron.powerUpAfterDestruction {
            var reward := ChooseReward(draw, thresholdPowerUp, thresholdShield);
            engine.Emit(RewardCreated(reward, entity));
          }
          if squadron.displayBonusSquadron {
            engine.Emit(ScoreAwarded(player, squadron.scoreBonus));
            var scoreLabel := factory.CreateScoreSquadron(entity);
            engine.Schedule(Task(After(SCORE_LABEL_SECONDS), RemoveEntity(scoreLabel)));
          }
        }
      }
    }
  }
}
