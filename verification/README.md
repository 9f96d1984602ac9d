# Space Killer core, modelled in Dafny

Space Killer is a vertical shoot-'em-up built on an entity–component engine.
This project models the parts of the game that decide what happens in the
world. Randomness, the clock and the screen are not modelled; their values
come in as inputs.

- **Enemy construction.** The factory builds enemy ships, laser ships, tanks,
  the three bosses, houses, squadrons and score labels, and schedules a boss's
  death explosions.
- **Squadron system.** When a squadron's last ship is gone, the system
  removes the squadron. If the squadron also has nothing left to shoot, it
  may drop one reward, drawn out of 22, and may award a score bonus shown by
  a label that goes away after 1.5 s.
- **Boss attack system.** It runs the boss's two fire patterns. Each pattern
  has a `pleaseFire` flag that firing clears and a timer task sets again.
- **Tank attack system.** It fires volleys with a per-volley shot counter,
  a delay between shots and a delay between volleys.
- **Level 2 timeline.** It decides, for each second of play, the asteroids,
  mists, solo enemies, phases, the spawn pools squadrons are taken from, and
  the boss cues.
- **Player record.** It keeps the score, the high score, the extra life earned
  on each `NEW_LIFE` boundary, lives, bombs and the six-step weapon power
  ladder.
- **Collision listener.** It applies each contact: player bullet on enemy,
  enemy on player, enemy bullet on player, pickups, and the shield.
- **Settings.** They hold the music and sound flags and the five-entry
  high-score table. The table is stored as a `;`-separated string.
- **Position and velocity.** These are the position component and the
  velocity tween accessor.

The engine (`Ecs.Engine`) holds four things:

- which entity ids are live;
- the component kinds each entity carries;
- an ordered log of calls into collaborators whose bodies are not part of
  this model (bonus factory, player listener, tween manager, effects);
- the tasks waiting on the pausable timer or on a tween timeline.

Code that updates objects in place is modelled as classes with `modifies`
frames. Each class method's contract gives the whole new state, in terms of a
pure function. The properties are proved about those functions as lemmas.

## Model

| member | source | states |
|---|---|---|
| EnemyFactory.EnemyShipStats | spaceKiller/src/main/java/com/bendk97/entities/enemies/EnemyEntityFactory.java:213-310 | The per-type table. Ship3, Ship5 and Lv3Ship5 are exactly the ones not directionable. Lv3 ships 1/3/5/7 are exactly the 250-point ones. Lv3 ships 1/3/7 are exactly the ones with strength 2. Exactly Lv3 ships 1/3 fire three at once. Exactly the five level-1 ships fire one. Exactly Ship1–4 loop their animation. Only Ship3 uses the slower frame duration. |
| EnemyFactory.UnknownShipIsPodfish | spaceKiller/src/main/java/com/bendk97/entities/enemies/EnemyEntityFactory.java:291-298 | A type code the switch does not name gets the default branch: the podfish with the Lv3Ship8 statistics |
| EnemyFactory.LaserShipAtlas | spaceKiller/src/main/java/com/bendk97/entities/enemies/EnemyEntityFactory.java:47-89 | The laser-ship switch falls back to the podfish exactly for the types it does not name |
| EnemyFactory.Level3AtlasesAgree | spaceKiller/src/main/java/com/bendk97/entities/enemies/EnemyEntityFactory.java:47-89 | The laser-ship switch and the enemy-ship switch pick the same atlas region for each level-3 type |
| EnemyFactory.HouseRegionsDistinct | spaceKiller/src/main/java/com/bendk97/entities/enemies/EnemyEntityFactory.java:461-490 | Different house types get different sprite names, and a ruin's sprite name is never a house's |
| EnemyFactory.BurstTasks | spaceKiller/src/main/java/com/bendk97/entities/enemies/EnemyEntityFactory.java:514-532 | n tasks; the i-th bursts the boss at i × 0.1 s |
| EnemyFactory.EnemyEntityFactory.CreateEnemy | spaceKiller/src/main/java/com/bendk97/entities/enemies/EnemyEntityFactory.java:169-196 | One fresh entity with the enemy kinds. The enemy copies the characteristics. Its attack capacity is zero unless it can attack. Nothing else in the engine changes. |
| EnemyFactory.EnemyEntityFactory.CreateEnemySoucoupe | spaceKiller/src/main/java/com/bendk97/entities/enemies/EnemyEntityFactory.java:198-210 | A 100-point, one-life enemy at the standard firing rate; capacity 1 only if it can attack |
| EnemyFactory.EnemyEntityFactory.CreateEnemyShip | spaceKiller/src/main/java/com/bendk97/entities/enemies/EnemyEntityFactory.java:213-310 | An enemy whose points, strength, capacity and kinds follow `EnemyShipStats` for its type |
| EnemyFactory.EnemyEntityFactory.CreateLaserShip | spaceKiller/src/main/java/com/bendk97/entities/enemies/EnemyEntityFactory.java:91-126 | Unlimited attack capacity and the laser-ship flag. It starts just off the left or the right edge at the top of the screen. It has a velocity component only when given a velocity. It belongs to no squadron and is neither a boss nor a tank. |
| EnemyFactory.EnemyEntityFactory.CreateTank | spaceKiller/src/main/java/com/bendk97/entities/enemies/EnemyEntityFactory.java:129-167 | Two entities, cannon first. Only the cannon carries the enemy and tank kinds. The cannon starts unable to fire. |
| EnemyFactory.EnemyEntityFactory.CreateBossEntity | spaceKiller/src/main/java/com/bendk97/entities/enemies/EnemyEntityFactory.java:313-343 | What the three bosses share: 50 points, the boss flag, unlimited capacity, and pattern 1 armed after 5 s |
| EnemyFactory.EnemyEntityFactory.CreateBoss | spaceKiller/src/main/java/com/bendk97/entities/enemies/EnemyEntityFactory.java:313-343 | The level-1 boss: its life gauge and the given bullet velocity, both flags down, and only pattern 1 armed, after 5 s |
| EnemyFactory.EnemyEntityFactory.CreateBoss2 | spaceKiller/src/main/java/com/bendk97/entities/enemies/EnemyEntityFactory.java:345-385 | The level-2 boss: its life gauge and the given bullet velocity, trigger intervals 4 s and 7 s. Pattern 1 is armed after 5 s and pattern 2 after 2 s. |
| EnemyFactory.EnemyEntityFactory.CreateBoss3 | spaceKiller/src/main/java/com/bendk97/entities/enemies/EnemyEntityFactory.java:387-427 | The level-3 boss: its life gauge and the given bullet velocity, trigger intervals 3 s and 7 s and an animation. Only pattern 1 is armed, after 5 s. |
| EnemyFactory.EnemyEntityFactory.CreateHouse | spaceKiller/src/main/java/com/bendk97/entities/enemies/EnemyEntityFactory.java:461-490 | A 50-point ground enemy and then its ruin, using the two sprite names for the house type |
| EnemyFactory.EnemyEntityFactory.CreateBossExploding | spaceKiller/src/main/java/com/bendk97/entities/enemies/EnemyEntityFactory.java:514-532 | Exactly the 50 burst tasks of `BurstTasks` are appended; nothing else changes |
| EnemyFactory.EnemyEntityFactory.CreateSquadron | spaceKiller/src/main/java/com/bendk97/entities/enemies/EnemyEntityFactory.java:535-544 | An empty squadron with nothing left to shoot, keeping the power-up, bonus-display and bonus settings as given |
| EnemyFactory.EnemyEntityFactory.CreateScoreSquadron | spaceKiller/src/main/java/com/bendk97/entities/enemies/EnemyEntityFactory.java:546-567 | One fresh entity carrying a position and the score label |
| SquadronSystem.Thresholds | spaceKiller/src/main/java/com/bendk97/systems/SquadronSystem.java:26-45 | 0 < power-up threshold < shield threshold < 22. Every level but level 3 uses 17 and 21. |
| SquadronSystem.CountDrawsClosedForm | spaceKiller/src/main/java/com/bendk97/systems/SquadronSystem.java:54-61 | Among draws 0..n-1, each reward takes exactly the draws in its threshold interval |
| SquadronSystem.RewardWeights | spaceKiller/src/main/java/com/bendk97/systems/SquadronSystem.java:26-61 | The reward odds out of 22: power-up, shield and bomb 17/4/1 by default and 14/6/2 on level 3 |
| SquadronSystem.DepletionEffects | spaceKiller/src/main/java/com/bendk97/systems/SquadronSystem.java:48-75 | Calls happen only for an empty squadron with nothing left to shoot. A reward is created exactly when a power-up is due. The bonus is awarded exactly when it is displayed. A reward is always the first call. |
| SquadronSystem.RewardCountAppend | spaceKiller/src/main/java/com/bendk97/systems/SquadronSystem.java:56-60 | Rewards in concatenated logs add up |
| SquadronSystem.RewardGrantedAtMostOnce | spaceKiller/src/main/java/com/bendk97/systems/SquadronSystem.java:48-75 | Over any run of frames a squadron yields at most one reward, because it leaves the engine in the pass that grants it |
| SquadronSystem.RewardCountAtMostOne | spaceKiller/src/main/java/com/bendk97/systems/SquadronSystem.java:53-62 | A log whose only possible reward is its first call holds at most one |
| SquadronSystem.SquadronSystem.constructor | spaceKiller/src/main/java/com/bendk97/systems/SquadronSystem.java:36-45 | The thresholds are those of `Thresholds` for the level |
| SquadronSystem.SquadronSystem.ProcessEntity | spaceKiller/src/main/java/com/bendk97/systems/SquadronSystem.java:48-75 | A squadron with ships leaves the engine untouched. An empty one is removed. The calls are those of `DepletionEffects`. A displayed bonus adds a label entity and a task that removes it after 1.5 s. |
| BossAttack.Attack | spaceKiller/src/main/java/com/bendk97/systems/BossAttackSystem.java:35-71 | With no player, or with a dead boss, nothing happens. Otherwise each raised flag fires once and is lowered. Each fire schedules one re-arming inside [minTrigger, minTrigger + 2), in exact arithmetic. |
| BossAttack.RunArming | spaceKiller/src/main/java/com/bendk97/entities/enemies/EnemyEntityFactory.java:336-341 | A factory arming raises its flag unconditionally. A re-arming raises it only while the boss is present and alive. |
| BossAttack.DeadBossStaysSilent | spaceKiller/src/main/java/com/bendk97/systems/BossAttackSystem.java:41-70 | A dead boss never fires again, whatever frames and tasks run. Without a factory arming its flags never change. |
| BossAttack.BossAttackSystem.ProcessEntity | spaceKiller/src/main/java/com/bendk97/systems/BossAttackSystem.java:35-71 | The flags, fire calls and tasks are those of `Attack`; entities and trigger settings are unchanged |
| BossAttack.BossAttackSystem.RunArmingTask | spaceKiller/src/main/java/com/bendk97/systems/BossAttackSystem.java:47-53 | The flags become those of `RunArming` |
| TankAttack.TankFrame | core/src/com/bendk97/systems/TankAttackSystem.java:23-40 | No player means no change. A shot happens exactly when the volley is unfinished and more than `delayShoot` has passed. A shot bumps the counter and stamps the time. A finished volley reloads after `delayBetweenRafales` and back-dates the stamp by 300 ms. Otherwise nothing changes. |
| TankAttack.CounterStaysWithinLimit | core/src/com/bendk97/systems/TankAttackSystem.java:29-38 | Over any run of frames the shot counter never passes the volley size. Without a reload, the shots fired are exactly the counter's growth. |
| TankAttack.TankComponent.ReRandomCharacteristics | core/src/com/bendk97/systems/TankAttackSystem.java:31 | The volley characteristics become the drawn ones; the time stamp is kept |
| TankAttack.ProcessEntity | core/src/com/bendk97/systems/TankAttackSystem.java:23-40 | The tank's new state is that of `TankFrame`, and a shot sets the cannon's attack capacity to 1. Every other field of the enemy is unchanged. |
| Level2Script.Script | spaceKiller/src/main/java/com/bendk97/screens/levels/scripting/Level2Script.java:126-153 | A negative second does nothing. Asteroids come on multiples of 2, 7 or 9 and mists on multiples of 10. First solos come at 1, 5, 9, 13 and 17. Pools drawn from belong to the second's phase. Boss cues occur only in the boss phase. |
| Level2Script.PhaseWindows | spaceKiller/src/main/java/com/bendk97/screens/levels/scripting/Level2Script.java:135-152 | The phases in terms of the second: easy 20–90, medium 91–160, difficult 161–250, boss from 255, idle otherwise |
| Level2Script.EasyCadence | spaceKiller/src/main/java/com/bendk97/screens/levels/scripting/Level2Script.java:191-199 | The easy pool is drawn from exactly on multiples of 5 or 7 within 20–90 |
| Level2Script.MediumCadence | spaceKiller/src/main/java/com/bendk97/screens/levels/scripting/Level2Script.java:201-216 | The picked side draws on multiples of 5 or 7 and the other side on multiples of 10. A multiple of 10 draws both, the picked side first. |
| Level2Script.DifficultCadence | spaceKiller/src/main/java/com/bendk97/screens/levels/scripting/Level2Script.java:218-239 | The picked side draws on multiples of 5 or 8 and the other side on multiples of 8; on multiples of 8 the picked side comes first |
| Level2Script.BossCues | spaceKiller/src/main/java/com/bendk97/screens/levels/scripting/Level2Script.java:241-256 | The boss warning comes exactly at 255 and the boss exactly at 259, neither once the game is over |
| Level2Script.PhaseSoloEnemies | spaceKiller/src/main/java/com/bendk97/screens/levels/scripting/Level2Script.java:191-239 | Phase solo enemies: one at 55, one on each multiple of 30 in the medium phase, one at 190, two at 220 |
| Level2Script.GetRandomShipType | spaceKiller/src/main/java/com/bendk97/screens/levels/scripting/Level2Script.java:274-276 | A ship type in 1..5 |
| Level2Script.GetRandomMoveType | spaceKiller/src/main/java/com/bendk97/screens/levels/scripting/Level2Script.java:279-281 | A move type in 0..8 |
| Level2Script.Level2ScriptState.InitSpawns | spaceKiller/src/main/java/com/bendk97/screens/levels/scripting/Level2Script.java:114-123 | Every pool holds 30 squadrons, and the boss squadron is `BossItem`: one boss at velocity 100, no power-up, showing a 15000-point bonus |
| Level2Script.Level2ScriptState.Dispose | spaceKiller/src/main/java/com/bendk97/screens/levels/scripting/Level2Script.java:309-318 | Every pool is empty; the boss squadron is kept |
| Player.NextClimbsOneRung | core/src/com/bendk97/components/PlayerComponent.java:128-153 | A power-up climbs exactly one rung, except at the top where the level stays |
| Player.DelaysChangeOnlyOnFastSteps | core/src/com/bendk97/components/PlayerComponent.java:128-153 | Fire delays change only on the steps into TripleFast and TripleVeryFast, to those levels' delays |
| Player.LifeGainedIffBoundaryCrossed | core/src/com/bendk97/components/PlayerComponent.java:95-107 | For a non-negative score and gain, a life is earned exactly when a multiple of NEW_LIFE lies in (old score, new score] |
| Player.LevelAfterCountsPickups | core/src/com/bendk97/components/PlayerComponent.java:109-153 | After any sequence of pickups and life losses, the power level is the starting rung, or Normal after a loss, plus the pickups since the last loss, capped at the top |
| Player.PlayerComponent.constructor | core/src/com/bendk97/components/PlayerComponent.java:44-59 | The field initialisers: the record starts at its reset state, with high score 0 |
| Player.PlayerComponent.EnemyKilled | core/src/com/bendk97/components/PlayerComponent.java:13-16 | Both kill counters go up by one; nothing else changes |
| Player.PlayerComponent.Reset | core/src/com/bendk97/components/PlayerComponent.java:65-81 | Everything returns to its starting value except the high score |
| Player.PlayerComponent.ResetArmament | core/src/com/bendk97/components/PlayerComponent.java:71-78 | Score, lives, bombs, power level and fire delays return to their starting values; the invariant and every other field are kept |
| Player.PlayerComponent.ResetProgress | core/src/com/bendk97/components/PlayerComponent.java:66-80 | Level, script clock, ads reward and the kill and loss counters return to their starting values; score, lives, bombs and weapons are untouched |
| Player.PlayerComponent.GetScore | core/src/com/bendk97/components/PlayerComponent.java:83-85 | At least seven characters: zeros and then the score's decimal spelling. For a non-negative score, it reads back as the score. |
| Player.PlayerComponent.UpdateScore | core/src/com/bendk97/components/PlayerComponent.java:95-107 | The score grows by the points and the high score follows it. An extra life comes exactly when a NEW_LIFE boundary is crossed. Afterwards `IsHighscore` holds exactly when the new score reached the old high score, and a game that was not over stays not over. Nothing else changes. |
| Player.PlayerComponent.LoseLife | core/src/com/bendk97/components/PlayerComponent.java:109-115 | One life less and one loss more, with power and fire delays back to Normal. The game is over afterwards exactly when at most one life was left. Nothing else changes. |
| Player.PlayerComponent.UseBomb | core/src/com/bendk97/components/PlayerComponent.java:117-126 | One bomb less, if there is one; the count never goes negative; a bomb is used exactly when `HasBombs` held before; nothing else changes |
| Player.PlayerComponent.HasBombs | core/src/com/bendk97/components/PlayerComponent.java:117-119 | Under the record's invariant, true exactly when `useBomb` gets past its `bombs == 0` guard |
| Player.PlayerComponent.IsGameOver | core/src/com/bendk97/components/PlayerComponent.java:155-157 | No lives left. `LoseLife` and `UpdateScore` state how it changes. |
| Player.PlayerComponent.IsHighscore | core/src/com/bendk97/components/PlayerComponent.java:163-165 | Under the record's invariant, true exactly when the score has reached the high score |
| Player.PlayerComponent.PowerUp | core/src/com/bendk97/components/PlayerComponent.java:128-153 | One rung up the ladder with that rung's delays. At the top, 100 points, through `UpdateScore`. Bombs, counters, level and script clock do not change. |
| Collisions.StruckSpec | core/src/com/benk97/listeners/impl/CollisionListenerImpl.java:44-50 | Every hit removes exactly the bullet and takes one point off the enemy's life. It credits the player once, charges no life, and logs the explosion right after what came before. |
| Collisions.KilledSpec | core/src/com/benk97/listeners/impl/CollisionListenerImpl.java:52-93 | A kill counts one kill and takes the enemy out of its squadron. An ordinary enemy then leaves the engine at once. A boss stays, and one removal task is scheduled for when its death timeline completes. The player is neither credited nor charged. |
| Collisions.EnemyShotSpec | core/src/com/benk97/listeners/impl/CollisionListenerImpl.java:40-95 | The bullet always goes, and the player is credited exactly once and never charged a life. The enemy loses one point of life. A lethal hit counts one kill and takes the enemy out of its squadron. An ordinary enemy then leaves the engine at once; a boss is given a removal task for when its timeline completes. Nothing else leaves. |
| Collisions.BodyHit | core/src/com/benk97/listeners/impl/CollisionListenerImpl.java:98-103 | One life lost, and no entity or squadron changes |
| Collisions.BulletHit | core/src/com/benk97/listeners/impl/CollisionListenerImpl.java:106-112 | One life lost, and exactly the bullet leaves |
| Collisions.ShieldKill | core/src/com/benk97/listeners/impl/CollisionListenerImpl.java:142-149 | The enemy leaves its squadron and the engine, with no credit and no kill counted |
| Collisions.ShotAndShieldKillAgree | core/src/com/benk97/listeners/impl/CollisionListenerImpl.java:40-149 | A lethal shot and a shield kill of an ordinary enemy leave the same entities and squadron. Only the shot credits the player and counts the kill. |
| Collisions.ShotsToKill | core/src/com/benk97/listeners/impl/CollisionListenerImpl.java:48-93 | An enemy with gauge g survives g − 1 hits and dies on the g-th. Every hit credits the player. The kill is counted once. The enemy leaves, or for a boss has its removal scheduled, only on the last hit. |
| Collisions.CollisionListener.EnemyShoot | core/src/com/benk97/listeners/impl/CollisionListenerImpl.java:40-95 | The world afterwards is `EnemyShot` of the world before. The explosion is at the bullet for a boss-flagged enemy and at the enemy otherwise. Every other field of the player, of the enemy and of the squadron's reward settings is unchanged. |
| Collisions.CollisionListener.Kill | core/src/com/benk97/listeners/impl/CollisionListenerImpl.java:51-94 | The lethal branch. One kill is counted and the enemy leaves its squadron. Then it is removed, or for a boss its bursts and a removal on timeline completion are started. Every other player field and the squadron's reward settings are unchanged. |
| Collisions.CollisionListener.PlayerHitByEnemyBody | core/src/com/benk97/listeners/impl/CollisionListenerImpl.java:98-103 | The world afterwards is `BodyHit` of the world before |
| Collisions.CollisionListener.PlayerHitByEnemyBullet | core/src/com/benk97/listeners/impl/CollisionListenerImpl.java:106-112 | The world afterwards is `BulletHit` of the world before |
| Collisions.CollisionListener.PlayerPowerUp | core/src/com/benk97/listeners/impl/CollisionListenerImpl.java:115-123 | The player's new state is that of one `powerUp`: one rung up with that rung's delays, or at the top 100 points with the high score and an extra life following. The pickup's tweens are stopped and exactly the pickup is gone. |
| Collisions.CollisionListener.PlayerShieldUp | core/src/com/benk97/listeners/impl/CollisionListenerImpl.java:127-133 | A shield is created for the player, the pickup's tweens are stopped, and exactly the pickup is gone |
| Collisions.CollisionListener.BulletStoppedByShield | core/src/com/benk97/listeners/impl/CollisionListenerImpl.java:136-139 | Exactly the bullet leaves |
| Collisions.CollisionListener.EnemyShootByShield | core/src/com/benk97/listeners/impl/CollisionListenerImpl.java:142-149 | The world afterwards is `ShieldKill` of the world before, and the squadron's reward settings are unchanged |
| Settings.StoredTableRoundTrip | core/src/com/benk97/Settings.java:49-75 | A non-empty table of 32-bit ints written by `addScore` loads back as the same table |
| Settings.EmptyTableDoesNotReload | core/src/com/benk97/Settings.java:49-75 | An empty table is written as the empty string, which splits into one empty field and does not load |
| Settings.DefaultTableIsFiveZeros | core/src/com/benk97/Settings.java:50-55 | With nothing stored, the table loads as five zeros |
| Settings.SplitSerialize | core/src/com/benk97/Settings.java:51 | Splitting the stored string on `;` gives the scores' spellings, with the trailing empty field dropped |
| Settings.InsertScore | core/src/com/benk97/Settings.java:62-69 | The length is kept, and a score no entry is below leaves the table as it is. Otherwise the score goes at the first smaller entry, whatever is before it is kept, and the rest shifts down one place. |
| Settings.InsertKeepsOrder | core/src/com/benk97/Settings.java:62-69 | Inserting into a non-increasing table keeps it non-increasing |
| Settings.InsertDropsFifth | core/src/com/benk97/Settings.java:62-69 | For a five-entry table, the result holds the first four entries and the new score |
| Settings.Settings.IsMusicOn | core/src/com/benk97/Settings.java:31-33 | The stored flag, on by default |
| Settings.Settings.IsSoundOn | core/src/com/benk97/Settings.java:45-47 | The stored flag, on by default |
| Settings.Settings.SetMusic | core/src/com/benk97/Settings.java:21-29 | Stores the music flag; nothing else changes |
| Settings.Settings.SetSound | core/src/com/benk97/Settings.java:35-43 | Stores the sound flag; nothing else changes |
| Settings.Settings.LoadHighScores | core/src/com/benk97/Settings.java:49-56 | The table is the parsed split of the stored string, or of the default. It fails exactly when a field is not an integer. |
| Settings.Settings.BuildScoresString | core/src/com/benk97/Settings.java:70-74 | Each score followed by `;`, in order |
| Settings.Settings.InsertInPlace | core/src/com/benk97/Settings.java:62-69 | The array becomes `InsertScore` of its old contents. It fails exactly when the shift would index past a table shorter than five. |
| Settings.Settings.AddScore | core/src/com/benk97/Settings.java:58-77 | The table becomes `InsertScore` of the loaded one and the stored string its serialization, which loads back as the table. It fails exactly when loading or the shift fails. |
| Settings.Settings.GetHighscore | core/src/com/benk97/Settings.java:79-84 | The first entry of the loaded table; it fails when loading fails or the table is empty |
| Position.PositionComponent.constructor | core/src/com/benk97/components/PositionComponent.java:7 | A new position is at the origin |
| Position.PositionComponent.Reset | core/src/com/benk97/components/PositionComponent.java:10-13 | Back to the origin |
| Position.PositionComponent.SetPosition | core/src/com/benk97/components/PositionComponent.java:15-18 | Both coordinates as given |
| Position.ResetAfterSet | core/src/com/benk97/components/PositionComponent.java:10-18 | A reset after any `setPosition` lands on the origin |
| VelocityAccessor.GetValues | core/src/com/benk97/tweens/VelocityComponentAccessor.java:11-22 | A known type writes its coordinate to slot 0 and returns 1. An unknown type returns -1 and writes nothing. |
| VelocityAccessor.SetValues | core/src/com/benk97/tweens/VelocityComponentAccessor.java:25-36 | A known type sets only its coordinate from slot 0; an unknown type changes nothing |
| VelocityAccessor.SetThenGet | core/src/com/benk97/tweens/VelocityComponentAccessor.java:11-36 | Writing then reading a value with the same known type gives it back |
| Components.EnemyComponent.Hit | core/src/com/benk97/listeners/impl/CollisionListenerImpl.java:50 | One point of life less; nothing else changes |
| Components.SquadronComponent.RemoveEntity | core/src/com/benk97/listeners/impl/CollisionListenerImpl.java:55 | The ship leaves the squadron's set; the reward settings stay |
| Java.IntToStringRoundTrip | core/src/com/benk97/Settings.java:54 | A 32-bit integer's decimal spelling parses back to it |

## Left out

- **Things outside the model.** Sounds, music, sprites, animations, lights, shaders and tween movements are not modelled. The model keeps only the fact that tweens on an entity are stopped.
- **Explosions.** `createEntityExploding` and the explosion entities it creates are recorded as a logged call at the explosion's coordinates.
- **Rewards and shields.** The bonus factory's `createPowerUp`, `createShieldUp` and `createBombUp`, the boss fire factories, and the shield factory are recorded as logged calls. Their bodies are not part of this model.
- **Player listener.** `updateScore(player, enemy)` and `loseLive` are recorded as logged calls. The listener's own effect on the player is not part of this model.
- **Achievements.** `checkAchievements` is recorded as a logged call.
- **createAsteroid.** It is not modelled. Its position and velocity are float layout drawn at random.
- **EnemyFactory.EnemyEntityFactory.CreateScoreSquadron:** the label's position is a float computation clamped to the screen. Only the entity and its kinds are modelled.
- **EnemyFactory constants.** The factory's screen size, boss gauges, house sprite base and boss trigger intervals are given as parameters. Their values are not part of this model.
- **Collisions.CollisionListener.EnemyShoot:** after a boss's death timeline, timers add and remove the level-finished marker and restart the level. These are not modelled. Only the removal on completion is kept.
- **Deferred removal.** The engine removes entities immediately. The engine's deferral of removals made during an update is not modelled.
- **Collisions.CollisionListener.EnemyShoot:** requires `enemy != bullet`. A contact between two distinct entities always satisfies this. Under this requirement, reading the boss component before or after the bullet's removal gives the same answer.
- **Collisions.CollisionListener.EnemyShoot:** the player's `enemiesKilled` counter and `powerUp` are those of the player record modelled in `Player`.
- **Player.PlayerComponent.UpdateScore:** does not model 32-bit overflow of the score. Scores are unbounded integers.
- **Other PlayerComponent methods.** `copyPlayerData`, `getHighccore`, `resetScore`, `getScoreInt`, `setHighScore` and the `PowerLevel` colours and region names are not modelled. They are plain accessors or presentation data.
- **Level2Script.Level2ScriptState.InitSpawns:** the spawn generator (`randomSpawnEnemies`) is not part of this model. The five generated lists are inputs of 30 squadrons each.
- **Level2Script.Script:** gives, for each second, the set of actions and the pools drawn from, in order. Several things are not modelled:
  - the shared level script;
  - how `executeScriptFromList` consumes a pool;
  - the random asteroid and mist parameters;
  - the relative order of the asteroid, mist, solo and phase actions within one second.
- **Level2 mists.** `getRandomMist`, `getMist`, ambient lights and backgrounds are not modelled. They are presentation.
- **TankAttack.ProcessEntity:** the two clock readings in one frame are taken as the same instant `now`.
- **EnemyFactory.EnemyEntityFactory.CreateTank:** the cannon's `TankComponent` and `tankComponent.setLevel(level)` are not modelled. The tank level is reduced to its bullet velocity, and `TankAttack` starts from an arbitrary tank state instead of the one `setLevel` sets.
- **Tank volleys.** What `reRandomCharacteristics` draws is an input. Its distribution is not part of this model.
- **Randomness.** Every `random.nextInt`/`nextFloat` value is an input with the drawn range as a precondition: the squadron reward draw, the boss jitters and the level 2 side and type choices.
- **Settings.Settings.AddScore:** the preferences store is a map in memory, and `flush` is not modelled.
- **Settings.Settings.LoadHighScores:** `Integer.valueOf` is modelled for ASCII digits with an optional sign. An unparsable field, or an index past the array in `addScore`, is a failed result instead of a thrown exception.
- **Settings.Settings.GetHighscore:** on an empty table (a stored string made only of `;`, which `split` turns into no fields), reading `highscores[0]` throws `ArrayIndexOutOfBoundsException`. It is a failed result.
- **Settings.StoredTableRoundTrip:** holds for non-empty tables only. An empty table is stored as the empty string. Its single empty field makes `Integer.valueOf("")` throw on reload, so it does not load back (`Settings.EmptyTableDoesNotReload`).
- **Floating point.** Java `float` values are modelled as exact `real`s: positions, velocities, delays, boss trigger intervals and jitters. Rounding is not modelled. For example, `minTriggerFire + nextFloat() * 2f` can round up to exactly `minTriggerFire + 2` for the largest draw. The program's re-arm window is therefore closed, while `BossAttack.Attack` states the half-open interval [minTrigger, minTrigger + 2). Burst delays `i * 0.1f` and float positions differ from their exact values in the same way.
- **BossAttack.BossAttackSystem.RunArmingTask:** the factory's arming tasks (`ArmFire1`, `ArmFire2`) raise the flag on a boss component that is taken to exist. In the program, `ComponentMapperHelper.boss.get(boss).pleaseFire1 = true` throws `NullPointerException` if the boss entity has been removed before the task runs. `BossAttack.RunArming` raises the flag unconditionally instead of modelling that failure.
- **Unshown component helpers.** The bodies of `EnemyComponent.hit`, `isDead` and `initLifeGauge` and of `SquadronComponent.removeEntity` are not part of this model. They are modelled as follows: a hit takes one point off the life gauge, an enemy is dead at a gauge of zero or below, `initLifeGauge(g)` sets the gauge to `g`, and `removeEntity` removes the ship from the squadron's set.
