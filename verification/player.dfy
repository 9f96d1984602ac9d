/** The player record: score and high score, the extra life earned on each
    NEW_LIFE boundary, lives, bombs, and the six-step weapon power ladder that
    losing a life resets. */
module Player {
  import opened Java
  import opened Ecs

  /** Weapon power, in the order power-ups climb it. */
  datatype PowerLevel = Normal | Double | Triple | TripleSide | TripleFast | TripleVeryFast

  function Rank(p: PowerLevel): nat
  {
    match p
    case Normal => 0
    case Double => 1
    case Triple => 2
    case TripleSide => 3
    case TripleFast => 4
    case TripleVeryFast => 5
  }

  function FromRank(k: nat): PowerLevel
    requires k <= 5
  {
    [Normal, Double, Triple, TripleSide, TripleFast, TripleVeryFast][k]
  }

  /** The level one power-up pickup leads to. */
  function Next(p: PowerLevel): PowerLevel
  {
    match p
    case Normal => Double
    case Double => Triple
    case Triple => TripleSide
    case TripleSide => TripleFast
    case TripleFast => TripleVeryFast
    case TripleVeryFast => TripleVeryFast
  }

  /** A pickup climbs exactly one rung, except at the top where the level stays. */
  lemma NextClimbsOneRung(p: PowerLevel)
    ensures Rank(Next(p)) == if Rank(p) == 5 then 5 else Rank(p) + 1
    ensures Next(p) == p <==> p == TripleVeryFast
    ensures FromRank(Rank(p)) == p
  {
  }

  /** Values of the game's constants the player record uses. */
  datatype GameConstants = GameConstants(
    newLife: int, lives: int, bombs: int, extraLivesAds: int,
    fireDelay: int, fireDelaySide: int,
    fireDelayFast: int, fireDelaySideFast: int,
    fireDelayVeryFast: int, fireDelaySideVeryFast: int)
  {
    predicate WellFormed() { newLife > 0 && bombs >= 0 }

    /** The (main, side) fire delays that go with each power level. */
    function DelaysFor(p: PowerLevel): (int, int)
    {
      match p
      case TripleFast => (fireDelayFast, fireDelaySideFast)
      case TripleVeryFast => (fireDelayVeryFast, fireDelaySideVeryFast)
      case _ => (fireDelay, fireDelaySide)
    }
  }

  /** The fire delays change only on the steps into TripleFast and TripleVeryFast. */
  lemma DelaysChangeOnlyOnFastSteps(c: GameConstants, p: PowerLevel)
    ensures Next(p) != TripleFast && Next(p) != TripleVeryFast ==> c.DelaysFor(Next(p)) == c.DelaysFor(p)
    ensures Next(p) == TripleFast ==> c.DelaysFor(Next(p)) == (c.fireDelayFast, c.fireDelaySideFast)
    ensures p != TripleVeryFast && Next(p) == TripleVeryFast ==> c.DelaysFor(Next(p)) == (c.fireDelayVeryFast, c.fireDelaySideVeryFast)
  {
  }

  /** Whether moving the score from `before` to `after` crosses a NEW_LIFE
      boundary, with Java's truncating integer division. */
  predicate LifeGained(before: int, after: int, newLife: int)
    requires newLife > 0
  {
    Div(before, newLife) < Div(after, newLife)
  }

  lemma MulMonotone(a: int, b: int, n: int)
    requires a <= b && n > 0
    ensures a * n <= b * n
  {
    assert b * n - a * n == (b - a) * n;
  }

  lemma DivBracket(a: int, n: int)
    requires a >= 0 && n > 0
    ensures (a / n) * n <= a < (a / n + 1) * n
  {
    assert a == (a / n) * n + a % n;
    assert (a / n + 1) * n == (a / n) * n + n;
  }

  lemma CrossingWitness(before: int, after: int, n: int)
    requires 0 <= before <= after && n > 0 && before / n < after / n
    ensures before < (before / n + 1) * n <= after
  {
    DivBracket(before, n);
    DivBracket(after, n);
    MulMonotone(before / n + 1, after / n, n);
  }

  lemma CrossedMultipleSeparates(before: int, after: int, n: int, k: int)
    requires 0 <= before <= after && n > 0 && before < k * n <= after
    ensures before / n < k <= after / n
  {
    DivBracket(before, n);
    DivBracket(after, n);
    if k <= before / n {
      MulMonotone(k, before / n, n);
    }
    if after / n < k {
      MulMonotone(after / n + 1, k, n);
    }
  }

  /** For a non-negative score and gain, a life is gained exactly when some
      multiple of NEW_LIFE lies in (before, after]. */
  lemma LifeGainedIffBoundaryCrossed(before: int, points: int, newLife: int)
    requires before >= 0 && points >= 0 && newLife > 0
    ensures LifeGained(before, before + points, newLife) <==>
            exists k: int :: before < k * newLife <= before + points
  {
    var after := before + points;
    DivOfNonNegatives(before, newLife);
    DivOfNonNegatives(after, newLife);
    if before / newLife < after / newLife {
      CrossingWitness(before, after, newLife);
    }
    if exists k: int :: before < k * newLife <= after {
      var k: int :| before < k * newLife <= after;
      CrossedMultipleSeparates(before, after, newLife, k);
    }
  }

  class PlayerComponent {
    const cfg: GameConstants
    var enemiesCountLevel: int
    var enemiesKilledLevel: int
    var fireDelay: int
    var fireDelaySide: int
    var enemiesKilled: int
    var laserShipKilled: int
    var howManyLifesLosed: int
    var score: int
    var highscore: int
    var lives: int
    var bombs: int
    var powerLevel: PowerLevel
    var rewardAds: int
    var level: Level
    var secondScript: real

    /** The record's invariant: the high score is never below the score, the
        bomb count never negative, and the fire delays always those of the
        current power level. */
    ghost predicate Valid()
      reads this
    {
      && cfg.WellFormed()
      && 0 <= highscore && score <= highscore
      && bombs >= 0
      && (fireDelay, fireDelaySide) == cfg.DelaysFor(powerLevel)
    }

    /** Every field `reset` restores is at its starting value. */
    ghost predicate AtStart()
      reads this
    {
      && secondScript == -3.0 && level == Level1 && rewardAds == cfg.extraLivesAds
      && howManyLifesLosed == 0 && score == 0 && enemiesKilled == 0 && laserShipKilled == 0
      && lives == cfg.lives && bombs == cfg.bombs && powerLevel == Normal
      && fireDelay == cfg.fireDelay && fireDelaySide == cfg.fireDelaySide
      && enemiesCountLevel == 0 && enemiesKilledLevel == 0
    }

    constructor (c: GameConstants)
      requires c.WellFormed()
      ensures cfg == c && Valid() && AtStart() && highscore == 0
    {
      cfg := c;
      enemiesCountLevel, enemiesKilledLevel := 0, 0;
      fireDelay, fireDelaySide := c.fireDelay, c.fireDelaySide;
      enemiesKilled, laserShipKilled, howManyLifesLosed := 0, 0, 0;
      score, highscore := 0, 0;
      lives, bombs := c.lives, c.bombs;
      powerLevel := Normal;
      rewardAds := c.extraLivesAds;
      level := Level1;
      secondScript := -3.0;
    }

    method EnemyKilled()
      requires Valid()
      modifies this
      ensures Valid()
      ensures enemiesKilledLevel == old(enemiesKilledLevel) + 1 && enemiesKilled == old(enemiesKilled) + 1
      ensures score == old(score) && highscore == old(highscore) && lives == old(lives)
      ensures bombs == old(bombs) && powerLevel == old(powerLevel)
      ensures fireDelay == old(fireDelay) && fireDelaySide == old(fireDelaySide)
      ensures howManyLifesLosed == old(howManyLifesLosed)
      ensures laserShipKilled == old(laserShipKilled) && rewardAds == old(rewardAds) && level == old(level)
      ensures secondScript == old(secondScript) && enemiesCountLevel == old(enemiesCountLevel)
    {
      enemiesKilledLevel := enemiesKilledLevel + 1;
      enemiesKilled := enemiesKilled + 1;
    }

    /** The pool reset: everything back to its starting value except the high score. */
    method Reset()
      requires Valid()
      modifies this
      ensures Valid() && AtStart() && highscore == old(highscore)
    {
      ResetArmament();
      ResetProgress();
    }

    /** The first half of `reset`: score, lives, bombs and weapons back to
        their starting values. */
    method ResetArmament()
      requires Valid()
      modifies this
      ensures Valid() && highscore == old(highscore)
      ensures score == 0 && lives == cfg.lives && bombs == cfg.bombs && powerLevel == Normal
      ensures fireDelay == cfg.fireDelay && fireDelaySide == cfg.fireDelaySide
      ensures secondScript == old(secondScript) && level == old(level) && rewardAds == old(rewardAds)
      ensures howManyLifesLosed == old(howManyLifesLosed) && enemiesKilled == old(enemiesKilled)
      ensures laserShipKilled == old(laserShipKilled)
      ensures enemiesCountLevel == old(enemiesCountLevel) && enemiesKilledLevel == old(enemiesKilledLevel)
    {
      powerLevel, fireDelay, fireDelaySide := Normal, cfg.fireDelay, cfg.fireDelaySide;
      score, lives, bombs := 0, cfg.lives, cfg.bombs;
    }

    /** The second half of `reset`: the level, the script clock and the
        counters back to their starting values. */
    method ResetProgress()
      modifies this
      ensures secondScript == -3.0 && level == Level1 && rewardAds == cfg.extraLivesAds
      ensures howManyLifesLosed == 0 && enemiesKilled == 0 && laserShipKilled == 0
      ensures enemiesCountLevel == 0 && enemiesKilledLevel == 0
      ensures score == old(score) && highscore == old(highscore) && lives == old(lives) && bombs == old(bombs)
      ensures powerLevel == old(powerLevel) && fireDelay == old(fireDelay) && fireDelaySide == old(fireDelaySide)
    {
      secondScript, level, rewardAds, howManyLifesLosed := -3.0, Level1, cfg.extraLivesAds, 0;
      enemiesKilled, laserShipKilled := 0, 0;
      enemiesCountLevel, enemiesKilledLevel := 0, 0;
    }

    /** The score as the HUD shows it: at least seven characters, zero padded
        on the left, reading back as the score. */
    function GetScore(): (s: string)
      reads this
      ensures |s| >= 7 && |s| >= |IntToString(score)|
      ensures s[|s| - |IntToString(score)|..] == IntToString(score)
      ensures forall i | 0 <= i < |s| - |IntToString(score)| :: s[i] == '0'
      ensures score >= 0 ==> AllDigits(s) && DigitsValue(s) == score
    {
      ZeroPadded7Spelling(score);
      ZeroPadded7(score)
    }

    method UpdateScore(points: int) returns (newLife: bool)
      requires Valid()
      modifies this
      ensures Valid()
      ensures score == old(score) + points
      ensures highscore == if score > old(highscore) then score else old(highscore)
      ensures newLife == LifeGained(old(score), score, cfg.newLife)
      ensures IsHighscore() <==> score >= old(highscore)
      ensures old(!IsGameOver()) ==> !IsGameOver()
      ensures lives == if newLife then old(lives) + 1 else old(lives)
      ensures bombs == old(bombs) && powerLevel == old(powerLevel) && howManyLifesLosed == old(howManyLifesLosed)
      ensures fireDelay == old(fireDelay) && fireDelaySide == old(fireDelaySide)
      ensures enemiesKilled == old(enemiesKilled) && enemiesKilledLevel == old(enemiesKilledLevel)
      ensures laserShipKilled == old(laserShipKilled) && rewardAds == old(rewardAds) && level == old(level)
      ensures secondScript == old(secondScript) && enemiesCountLevel == old(enemiesCountLevel)
    {
      var oldScore := score;
      score := score + points;
      if score > highscore {
        highscore := score;
      }
      if Div(oldScore, cfg.newLife) < Div(score, cfg.newLife) {
        lives := lives + 1;
        newLife := true;
      } else {
        newLife := false;
      }
    }

    method LoseLife()
      requires Valid()
      modifies this
      ensures Valid()
      ensures lives == old(lives) - 1 && howManyLifesLosed == old(howManyLifesLosed) + 1
      ensures IsGameOver() <==> old(lives) <= 1
      ensures powerLevel == Normal && fireDelay == cfg.fireDelay && fireDelaySide == cfg.fireDelaySide
      ensures score == old(score) && highscore == old(highscore) && bombs == old(bombs)
      ensures enemiesKilled == old(enemiesKilled) && enemiesKilledLevel == old(enemiesKilledLevel)
      ensures laserShipKilled == old(laserShipKilled) && rewardAds == old(rewardAds) && level == old(level)
      ensures secondScript == old(secondScript) && enemiesCountLevel == old(enemiesCountLevel)
    {
      lives := lives - 1;
      howManyLifesLosed := howManyLifesLosed + 1;
      powerLevel := Normal;
      fireDelaySide := cfg.fireDelaySide;
      fireDelay := cfg.fireDelay;
    }

    /** Under the invariant, exactly when `useBomb` gets past its `bombs == 0` guard. */
    predicate HasBombs()
      reads this
      ensures Valid() ==> (HasBombs() <==> bombs != 0)
    {
      bombs > 0
    }

    method UseBomb()
      requires Valid()
      modifies this
      ensures Valid()
      ensures bombs == if old(bombs) == 0 then 0 else old(bombs) - 1
      ensures old(HasBombs()) <==> bombs < old(bombs)
      ensures score == old(score) && highscore == old(highscore) && lives == old(lives)
      ensures powerLevel == old(powerLevel) && fireDelay == old(fireDelay) && fireDelaySide == old(fireDelaySide)
      ensures howManyLifesLosed == old(howManyLifesLosed)
      ensures enemiesKilled == old(enemiesKilled) && enemiesKilledLevel == old(enemiesKilledLevel)
      ensures laserShipKilled == old(laserShipKilled) && rewardAds == old(rewardAds) && level == old(level)
      ensures secondScript == old(secondScript) && enemiesCountLevel == old(enemiesCountLevel)
    {
      if bombs == 0 {
        return;
      }
      bombs := bombs - 1;
    }

    method PowerUp()
      requires Valid()
      modifies this
      ensures Valid()
      ensures powerLevel == Next(old(powerLevel))
      ensures (fireDelay, fireDelaySide) == cfg.DelaysFor(powerLevel)
      ensures old(powerLevel) != TripleVeryFast ==>
                score == old(score) && highscore == old(highscore) && lives == old(lives)
      ensures old(powerLevel) == TripleVeryFast ==>
                && score == old(score) + 100
                && highscore == (if score > old(highscore) then score else old(highscore))
                && lives == (if LifeGained(old(score), score, cfg.newLife) then old(lives) + 1 else old(lives))
      ensures bombs == old(bombs) && howManyLifesLosed == old(howManyLifesLosed)
      ensures enemiesKilled == old(enemiesKilled) && enemiesKilledLevel == old(enemiesKilledLevel)
      ensures laserShipKilled == old(laserShipKilled) && rewardAds == old(rewardAds) && level == old(level)
      ensures secondScript == old(secondScript) && enemiesCountLevel == old(enemiesCountLevel)
    {
      match powerLevel
      case Normal =>
        powerLevel := Double;
      case Double =>
        powerLevel := Triple;
      case Triple =>
        powerLevel := TripleSide;
      case TripleSide =>
        fireDelay := cfg.fireDelayFast;
        fireDelaySide := cfg.fireDelaySideFast;
        powerLevel := TripleFast;
      case TripleFast =>
        fireDelay := cfg.fireDelayVeryFast;
        fireDelaySide := cfg.fireDelaySideVeryFast;
        powerLevel := TripleVeryFast;
      case TripleVeryFast =>
        var _ := UpdateScore(100);
    }

    predicate IsGameOver()
      reads this
    {
      lives <= 0
    }

    /** Under the invariant, exactly when the score has reached the high score. */
    predicate IsHighscore()
      reads this
      ensures Valid() ==> (IsHighscore() <==> score >= highscore)
    {
      score == highscore
    }
  }

  // ------------------------------------------------ sequences of pickups

  /** What the player can do to the power level: pick up a power-up or lose a life. */
  datatype PowerEvent = PickPowerUp | LoseALife

  /** The power level after a sequence of pickups and life losses. */
  function LevelAfter(p: PowerLevel, evs: seq<PowerEvent>): PowerLevel
  {
    if evs == [] then p
    else
      var q := LevelAfter(p, evs[..|evs| - 1]);
      match evs[|evs| - 1]
      case PickPowerUp => Next(q)
      case LoseALife => Normal
  }

  /** The number of pickups since the last life loss, and whether there was one. */
  function PickupsSinceLastLoss(evs: seq<PowerEvent>): nat
  {
    if evs == [] then 0
    else if evs[|evs| - 1] == LoseALife then 0
    else PickupsSinceLastLoss(evs[..|evs| - 1]) + 1
  }

  function Min(a: int, b: int): int { if a < b then a else b }

  /** Power only climbs between life losses, one rung per pickup up to the
      top, and a life loss sends it back to Normal. */
  lemma {:induction false} LevelAfterCountsPickups(p: PowerLevel, evs: seq<PowerEvent>)
    ensures var base := if LoseALife in evs then 0 else Rank(p);
            LevelAfter(p, evs) == FromRank(Min(5, base + PickupsSinceLastLoss(evs)))
  {
    if evs != [] {
      var init := evs[..|evs| - 1];
      LevelAfterCountsPickups(p, init);
      assert LoseALife in evs <==> LoseALife in init || evs[|evs| - 1] == LoseALife by {
        assert evs == init + [evs[|evs| - 1]];
      }
      NextClimbsOneRung(LevelAfter(p, init));
    }
  }
}
