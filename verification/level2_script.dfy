/** The second level's timeline. Each second of play the script decides
    which scripted actions run: asteroids and mists on fixed cadences, a few
    solo enemies at fixed seconds, one of four phases chosen by the second,
    and, in the phases, squadrons taken from five spawn pools. */
module Level2Script {
  import opened Java

  /** The five spawn pools. */
  datatype Pool = EasyPool | MediumLeftPool | MediumRightPool | HardLeftPool | HardRightPool

  /** The firing rate a solo enemy is created with. */
  datatype SoloRate = StaticRate | TwiceRate

  /** A `createSoloEnemy` call: rate, life gauge, points, and the side when
      one is given. */
  datatype Solo = Solo(rate: SoloRate, gauge: int, points: int, fromLeft: Option<bool>)

  /** The solo enemy of the level's first seconds and of its first phases. */
  const STATIC_SOLO: Solo := Solo(StaticRate, 10, 100, None)

  function TwiceSolo(fromLeft: bool): Solo { Solo(TwiceRate, 10, 200, Some(fromLeft)) }

  /** The part of the level a second falls in. */
  datatype Phase = Warmup | Easy | Medium | Difficult | Gap | BossPhase

  /** What a phase does in one second: the "go" sound, solo enemies, the
      pools a squadron is taken from (in order), and the two boss cues;
      `bossIsComing` includes slowing the backgrounds down. */
  datatype PhaseActions = PhaseActions(soundGo: bool, solos: seq<Solo>, pools: seq<Pool>,
                                       bossIsComing: bool, bossIsHere: bool)

  const QUIET: PhaseActions := PhaseActions(false, [], [], false, false)

  /** What `script` does in one second: whether it runs at all (and runs the
      shared level script), an asteroid, a mist, the solo enemies of the first
      seconds, and the phase with what it does. */
  datatype SecondActions = SecondActions(runs: bool, asteroid: bool, mist: bool, firstSolos: seq<Solo>,
                                         phase: Phase, actions: PhaseActions)

  /** The pool on the side `left` picks, or with `!left` the other one. */
  function Side(left: bool, leftPool: Pool, rightPool: Pool): Pool { if left then leftPool else rightPool }

  /** A multiple of 10 is a multiple of 5. */
  lemma MultipleOfTen(second: int)
    ensures second % 10 == 0 ==> second % 5 == 0
  {
    if second % 10 == 0 {
      var q := second / 10;
      assert second == 5 * (2 * q);
    }
  }

  function ScriptEasyPart(second: int): PhaseActions
  {
    PhaseActions(false,
                 if second == 55 then [STATIC_SOLO] else [],
                 if second % 5 == 0 || second % 7 == 0 then [EasyPool] else [],
                 false, false)
  }

  function ScriptMediumPart(second: int, left: bool): PhaseActions
  {
    PhaseActions(second == 95,
                 if second % 30 == 0 then [STATIC_SOLO] else [],
                 (if second % 5 == 0 || second % 7 == 0 then [Side(left, MediumLeftPool, MediumRightPool)] else [])
                 + (if second % 10 == 0 then [Side(!left, MediumLeftPool, MediumRightPool)] else []),
                 false, false)
  }

  function ScriptDifficultPart(second: int, left: bool): PhaseActions
  {
    PhaseActions(second == 165,
                 (if second == 190 then [TwiceSolo(false)] else [])
                 + (if second == 220 then [TwiceSolo(false), TwiceSolo(true)] else []),
                 (if second % 5 == 0 || second % 8 == 0 then [Side(left, HardLeftPool, HardRightPool)] else [])
                 + (if second % 8 == 0 then [Side(!left, HardLeftPool, HardRightPool)] else []),
                 false, false)
  }

  function ScriptBoss(second: int, gameOver: bool): PhaseActions
  {
    if gameOver then QUIET
    else if second == 255 then QUIET.(bossIsComing := true)
    else if second == 259 then QUIET.(bossIsHere := true)
    else QUIET
  }

  /** The phase cascade: nothing before 20, then easy up to 90, medium up to
      160, difficult up to 250, a gap until 255, then the boss. */
  function PhaseOf(second: int): Phase
  {
    if second < 20 then Warmup
    else if second <= 90 then Easy
    else if second <= 160 then Medium
    else if second <= 250 then Difficult
    else if second < 255 then Gap
    else BossPhase
  }

  function PhaseActionsFor(phase: Phase, second: int, left: bool, gameOver: bool): PhaseActions
  {
    match phase
    case Easy => ScriptEasyPart(second)
    case Medium => ScriptMediumPart(second, left)
    case Difficult => ScriptDifficultPart(second, left)
    case BossPhase => ScriptBoss(second, gameOver)
    case _ => QUIET
  }

  /** `script(second)`: `left` is the side `random.nextBoolean()` picks in the
      medium and difficult phases, `gameOver` whether the player carries a
      game-over component. */
  function Script(second: int, left: bool, gameOver: bool): (r: SecondActions)
    // a negative second does nothing at all
    ensures !r.runs <==> second < 0
    ensures second < 0 ==> !r.asteroid && !r.mist && r.firstSolos == [] && r.actions == QUIET
    // the cadences shared by all phases
    ensures r.asteroid <==> second >= 0 && (second % 2 == 0 || second % 9 == 0 || second % 7 == 0)
    ensures r.mist <==> second >= 0 && second % 10 == 0
    ensures |r.firstSolos| == (if second in {1, 5, 9, 13, 17} then 1 else 0)
    // the spawn pools a second draws from all belong to its phase
    ensures forall p | p in r.actions.pools ::
      match r.phase
      case Easy => p == EasyPool
      case Medium => p in {MediumLeftPool, MediumRightPool}
      case Difficult => p in {HardLeftPool, HardRightPool}
      case _ => false
    // the boss cues only come in the boss phase
    ensures r.actions.bossIsComing || r.actions.bossIsHere ==> r.phase == BossPhase
  {
    if second < 0 then SecondActions(false, false, false, [], PhaseOf(second), QUIET)
    else
      SecondActions(true,
                    second % 2 == 0 || second % 9 == 0 || second % 7 == 0,
                    second % 10 == 0,
                    if second == 1 || second == 5 || second == 9 || second == 13 || second == 17 then [STATIC_SOLO] else [],
                    PhaseOf(second),
                    PhaseActionsFor(PhaseOf(second), second, left, gameOver))
  }

  /** The phase windows, in terms of the second. */
  lemma PhaseWindows(second: int)
    ensures PhaseOf(second) == Easy <==> 20 <= second <= 90
    ensures PhaseOf(second) == Medium <==> 91 <= second <= 160
    ensures PhaseOf(second) == Difficult <==> 161 <= second <= 250
    ensures PhaseOf(second) == BossPhase <==> second >= 255
    ensures PhaseOf(second) in {Warmup, Gap} <==> second < 20 || 251 <= second <= 254
  {
  }

  /** The easy phase draws from its pool on multiples of 5 or 7. */
  lemma EasyCadence(second: int, left: bool, gameOver: bool)
    ensures EasyPool in Script(second, left, gameOver).actions.pools
      <==> 20 <= second <= 90 && (second % 5 == 0 || second % 7 == 0)
  {
  }

  /** The medium phase draws from the picked side on multiples of 5 or 7 and
      from the other side on multiples of 10, so every multiple of 10 draws
      from both sides, the picked one first. */
  lemma MediumCadence(second: int, left: bool, gameOver: bool)
    requires 91 <= second <= 160
    ensures var pools := Script(second, left, gameOver).actions.pools;
      && (Side(left, MediumLeftPool, MediumRightPool) in pools <==> second % 5 == 0 || second % 7 == 0)
      && (Side(!left, MediumLeftPool, MediumRightPool) in pools <==> second % 10 == 0)
      && (second % 10 == 0 ==> pools == [Side(left, MediumLeftPool, MediumRightPool), Side(!left, MediumLeftPool, MediumRightPool)])
  {
    MultipleOfTen(second);
  }

  /** The difficult phase draws from the picked side on multiples of 5 or 8
      and from the other side on multiples of 8, the picked side first. */
  lemma DifficultCadence(second: int, left: bool, gameOver: bool)
    requires 161 <= second <= 250
    ensures var pools := Script(second, left, gameOver).actions.pools;
      && (Side(left, HardLeftPool, HardRightPool) in pools <==> second % 5 == 0 || second % 8 == 0)
      && (Side(!left, HardLeftPool, HardRightPool) in pools <==> second % 8 == 0)
      && (second % 8 == 0 ==> pools == [Side(left, HardLeftPool, HardRightPool), Side(!left, HardLeftPool, HardRightPool)])
  {
  }

  /** The boss warning, with the background slow-down, only at 255 and the
      boss only at 259, neither once the game is over. */
  lemma BossCues(second: int, left: bool, gameOver: bool)
    ensures var a := Script(second, left, gameOver).actions;
      && (a.bossIsComing <==> second == 255 && !gameOver)
      && (a.bossIsHere <==> second == 259 && !gameOver)
  {
  }

  /** The solo enemies of the phases: one at 55, one on each multiple of 30
      of the medium phase, one at 190 and two at 220. */
  lemma PhaseSoloEnemies(second: int, left: bool, gameOver: bool)
    ensures |Script(second, left, gameOver).actions.solos|
      == if second == 55 || (91 <= second <= 160 && second % 30 == 0) || second == 190 then 1
         else if second == 220 then 2
         else 0
  {
  }

  /** A squadron to spawn, as `ScriptItemBuilder` assembles it. */
  datatype ScriptItem = ScriptItem(
    typeShip: int, typeSquadron: int, velocity: real, number: int, powerUp: bool,
    displayBonus: bool, bonus: int, bulletVelocity: real)

  /** Constants of the level whose values are not part of this model. */
  datatype Level2Constants = Level2Constants(bossLevel2: int, bossLevel2Move: int, enemyBulletEasyVelocity: real)

  /** Pool size `initSpawns` asks for. */
  const NB_SPAWNS: nat := 30

  /** The boss squadron: one boss at velocity 100 with no power-up, showing a
      15000-point bonus. */
  function BossItem(k: Level2Constants): ScriptItem
  {
    ScriptItem(k.bossLevel2, k.bossLevel2Move, 100.0, 1, false, true, 15000, k.enemyBulletEasyVelocity)
  }

  /** `getRandomShipType`: one of the five level-2 ship types. */
  function GetRandomShipType(draw: int): (t: int)
    requires 0 <= draw < 5
    ensures 1 <= t <= 5
  {
    1 + draw
  }

  /** `getRandomMoveType`: one of the nine squadron moves. */
  function GetRandomMoveType(draw: int): (t: int)
    requires 0 <= draw < 9
    ensures 0 <= t <= 8
  {
    draw
  }

  class Level2ScriptState {
    var easy: seq<ScriptItem>
    var mediumLeft: seq<ScriptItem>
    var mediumRight: seq<ScriptItem>
    var hardLeft: seq<ScriptItem>
    var hardRight: seq<ScriptItem>
    var boss: Option<ScriptItem>

    constructor ()
      ensures easy == [] && mediumLeft == [] && mediumRight == [] && hardLeft == [] && hardRight == []
      ensures boss == None
    {
      easy, mediumLeft, mediumRight, hardLeft, hardRight := [], [], [], [], [];
      boss := None;
    }

    function Pool(p: Pool): seq<ScriptItem>
      reads this
    {
      match p
      case EasyPool => easy
      case MediumLeftPool => mediumLeft
      case MediumRightPool => mediumRight
      case HardLeftPool => hardLeft
      case HardRightPool => hardRight
    }

    /** `initSpawns`: the five pools from what the spawn generator produced
        for 30 squadrons each, and the boss squadron. */
    method InitSpawns(k: Level2Constants, easy': seq<ScriptItem>, mediumLeft': seq<ScriptItem>,
                      mediumRight': seq<ScriptItem>, hardLeft': seq<ScriptItem>, hardRight': seq<ScriptItem>)
      requires |easy'| == |mediumLeft'| == |mediumRight'| == |hardLeft'| == |hardRight'| == NB_SPAWNS
      modifies this
      ensures forall p :: |Pool(p)| == NB_SPAWNS
      ensures easy == easy' && mediumLeft == mediumLeft' && mediumRight == mediumRight'
      ensures hardLeft == hardLeft' && hardRight == hardRight'
      ensures boss == Some(BossItem(k))
    {
      easy, mediumLeft, mediumRight := easy', mediumLeft', mediumRight';
      hardLeft, hardRight := hardLeft', hardRight';
      boss := Some(BossItem(k));
    }

    /** `dispose`: all five pools emptied; the boss squadron is kept. */
    method Dispose()
      modifies this
      ensures forall p :: Pool(p) == []
      ensures boss == old(boss)
    {
      easy, mediumLeft, mediumRight, hardLeft, hardRight := [], [], [], [], [];
    }
  }
}
