/** The tank's cannon fires volleys: up to `nbShoots` shots spaced by more
    than `delayShoot` milliseconds, then a pause of more than
    `delayBetweenRafales` before its characteristics are drawn again. */
module TankAttack {
  import opened Components

  /** The characteristics `reRandomCharacteristics` draws. Its body is not
      part of this model, so what it draws is an input. */
  datatype Volley = Volley(fired: int, nbShoots: int, delayShoot: int, delayBetweenRafales: int)

  /** The tank component's fields. `fired` is `nbShootsBeforeLastReload`;
      times are milliseconds. */
  datatype TankState = TankState(fired: int, nbShoots: int, delayShoot: int, delayBetweenRafales: int, lastShoot: int)

  /** The new tank state, and whether the cannon was armed for a shot. */
  datatype TankOutcome = TankOutcome(state: TankState, shoots: bool)

  /** A redrawn volley whose counter has not passed its limit. */
  predicate ReloadWithinLimit(v: Volley) { v.fired <= v.nbShoots }

  /** One frame of `processEntity` at time `now`. */
  function TankFrame(s: TankState, playerPresent: bool, now: int, redrawn: Volley): (r: TankOutcome)
    // without a player nothing changes
    ensures !playerPresent ==> r == TankOutcome(s, false)
    // a shot exactly when the volley is not spent and more than delayShoot has passed
    ensures r.shoots <==> playerPresent && s.fired < s.nbShoots && now - s.lastShoot > s.delayShoot
    ensures r.shoots ==> r.state == s.(fired := s.fired + 1, lastShoot := now)
    // a spent volley reloads once more than delayBetweenRafales has passed,
    // backdating the last shot by 300 ms
    ensures playerPresent && s.fired >= s.nbShoots && now - s.lastShoot > s.delayBetweenRafales ==>
      r.state == TankState(redrawn.fired, redrawn.nbShoots, redrawn.delayShoot, redrawn.delayBetweenRafales, now - 300)
    // otherwise the frame is idle
    ensures !r.shoots && !(playerPresent && s.fired >= s.nbShoots && now - s.lastShoot > s.delayBetweenRafales) ==>
      r.state == s
  {
    if !playerPresent then TankOutcome(s, false)
    else if s.fired >= s.nbShoots then
      if now - s.lastShoot > s.delayBetweenRafales then
        TankOutcome(TankState(redrawn.fired, redrawn.nbShoots, redrawn.delayShoot, redrawn.delayBetweenRafales, now - 300), false)
      else TankOutcome(s, false)
    else if now - s.lastShoot > s.delayShoot then
      TankOutcome(s.(fired := s.fired + 1, lastShoot := now), true)
    else TankOutcome(s, false)
  }

  /** A frame as the run sees it: whether a player is present, the clock,
      and what a reload would draw. */
  datatype TankTick = TankTick(playerPresent: bool, now: int, redrawn: Volley)

  predicate IsReload(s: TankState, t: TankTick)
  {
    t.playerPresent && s.fired >= s.nbShoots && t.now - s.lastShoot > s.delayBetweenRafales
  }

  /** The state after a run of frames, the shots fired and the reloads. */
  function TankRun(s: TankState, ticks: seq<TankTick>): (r: (TankState, nat, nat))
    decreases |ticks|
  {
    if ticks == [] then (s, 0, 0)
    else
      var o := TankFrame(s, ticks[0].playerPresent, ticks[0].now, ticks[0].redrawn);
      var (last, shots, reloads) := TankRun(o.state, ticks[1..]);
      (last, shots + (if o.shoots then 1 else 0), reloads + (if IsReload(s, ticks[0]) then 1 else 0))
  }

  /** The counter starts within the limit and each reload draws a counter
      within its limit, so the counter never passes the limit; between
      reloads the shots fired are exactly what the counter gained. */
  lemma {:induction false} CounterStaysWithinLimit(s: TankState, ticks: seq<TankTick>)
    requires s.fired <= s.nbShoots
    requires forall i | 0 <= i < |ticks| :: ReloadWithinLimit(ticks[i].redrawn)
    ensures TankRun(s, ticks).0.fired <= TankRun(s, ticks).0.nbShoots
    ensures TankRun(s, ticks).2 == 0 ==>
      TankRun(s, ticks).0.fired == s.fired + TankRun(s, ticks).1 && TankRun(s, ticks).0.nbShoots == s.nbShoots
    ensures TankRun(s, ticks).2 == 0 ==> TankRun(s, ticks).1 <= s.nbShoots - s.fired
    decreases |ticks|
  {
    if ticks != [] {
      var o := TankFrame(s, ticks[0].playerPresent, ticks[0].now, ticks[0].redrawn);
      assert forall i | 0 <= i < |ticks| - 1 :: ticks[1..][i] == ticks[i + 1];
      CounterStaysWithinLimit(o.state, ticks[1..]);
    }
  }

  class TankComponent {
    var nbShootsBeforeLastReload: int
    var nbShoots: int
    var delayShoot: int
    var delayBetweenRafales: int
    var lastShoot: int

    function State(): TankState
      reads this
    {
      TankState(nbShootsBeforeLastReload, nbShoots, delayShoot, delayBetweenRafales, lastShoot)
    }

    /** `reRandomCharacteristics`, with what it draws given. */
    method ReRandomCharacteristics(v: Volley)
      modifies this
      ensures State() == TankState(v.fired, v.nbShoots, v.delayShoot, v.delayBetweenRafales, old(lastShoot))
    {
      nbShootsBeforeLastReload, nbShoots := v.fired, v.nbShoots;
      delayShoot, delayBetweenRafales := v.delayShoot, v.delayBetweenRafales;
    }
  }

  /** `processEntity` for a tank cannon: `playerPresent` says whether an
      unpaused player entity exists, `now` is `TimeUtils.millis()`, and
      `redrawn` is what `reRandomCharacteristics` would draw. A shot is the
      cannon's enemy component being allowed one attack. */
  method ProcessEntity(tank: TankComponent, enemy: EnemyComponent, playerPresent: bool, now: int, redrawn: Volley)
    modifies tank, enemy
    ensures var r := TankFrame(old(tank.State()), playerPresent, now, redrawn);
      && tank.State() == r.state
      && enemy.attackCapacity == (if r.shoots then 1 else old(enemy.attackCapacity))
    ensures enemy.lifeGauge == old(enemy.lifeGauge) && enemy.points == old(enemy.points)
    ensures enemy.squadron == old(enemy.squadron) && enemy.isTank == old(enemy.isTank)
    ensures enemy.probabilityAttack == old(enemy.probabilityAttack) && enemy.bulletVelocity == old(enemy.bulletVelocity)
    ensures enemy.isBoss == old(enemy.isBoss) && enemy.isLaserShip == old(enemy.isLaserShip)
  {
    if !playerPresent {
      return;
    }
    if tank.nbShootsBeforeLastReload >= tank.nbShoots {
      if now - tank.lastShoot > tank.delayBetweenRafales {
        tank.ReRandomCharacteristics(redrawn);
        tank.lastShoot := now - 300;
      }
    } else if now - tank.lastShoot > tank.delayShoot {
      tank.lastShoot := now;
      tank.nbShootsBeforeLastReload := tank.nbShootsBeforeLastReload + 1;
      enemy.attackCapacity := 1;
    }
  }
}
