# SoyBoyz Adventure: the game-session state machine

SoyBoyz Adventure is a pygame arcade game. The player moves a 100×100
sprite around a 1000×800 screen and shoots arrows at balls that fly in from
the edges. Destroying 20, 35, 60 and then 100 balls advances through four
levels. After the fourth, a boss with 100 health fires volleys of five balls
every two seconds. The player starts with 7 hp and loses one per tick in
which a ball touches them. Soybeans, which vanish after three seconds, heal
one point up to a cap of 10.

This project models the per-frame state logic of `main.py`:

- `Player` with `update`, `shoot`, `reduce_hp` and `increase_hp`;
- the off-screen self-kill of arrows and balls;
- the soybean lifetime;
- `Boss` with `update`, `shoot` and `reduce_health`;
- `Game` with `update`, `next_level`, `start_boss_level`, `reset_game`,
  `update_progress_bar`, `spawn_ball`, `spawn_soybean` and `handle_events`.

The model has two layers.

**The value layer.**
- `Session.Tick` is one call of `Game.update`, as a function from a `State`
  and a `Frame` to an `Outcome`. A `State` is every field `update` reads or
  writes. A `Frame` is what the world supplies: the clock, the held keys, the
  sprites' rectangles after they move, and which sprites overlap. An
  `Outcome` is the new state plus whether the lose or the win path ran.
- `Tick` is composed of one function per step, in the order of main.py:353-395.
- Sprite groups are insertion-ordered sequences of ids, and `kill()` is
  `Groups.Without`.
- `pygame.sprite.groupcollide(balls, arrows, True, True)` is `Groups.Collide`.
  Balls are visited in group order, and each takes every overlapping arrow
  that is still present. Each taken arrow is therefore counted once: an arrow
  over two balls is consumed by the first, and the second ball survives.
- The boss is `Option<Boss>` with an `alive` flag. This mirrors
  `hasattr(self, 'boss')`, which stays true after the boss is killed until
  `reset_game` deletes the attribute.

**The object layer.**
- `Game.Player` and `Game.Game` are classes whose methods update their fields
  in place, as main.py does.
- Each method is proved to leave `Abs()`, the game read as a `State`, equal
  to the matching `Session` function of the old state.
- `Game.Game.Update` is proved equal to `Session.Tick`. The group passes are
  loops, and so is the boss's five-ball volley.
- `Groups.KillEach` is the walk of `Group.update`.
- `Groups.GroupCollide` is groupcollide's walk over the ball group.

What is proved about the value layer:
- the session invariant is preserved;
- the exact effect of a tick on hp, on the boss and on the kill count;
- the soybean lifetime;
- the level guard;
- the spawn-interval bounds;
- multi-tick runs of the main loop, with any queue of spawn, shot and quit
  events handled between ticks: the 7th hitting tick loses, and the 20th boss
  hit wins.

`int(spawn_interval * 0.7)` at main.py:415 is modelled as the interpreter
computes it (`FloatScale`):
- 0.7 is the nearest IEEE-754 double, 3152519739159347 / 2^52;
- the product is rounded to 53 bits, ties to even;
- the result is truncated.

The first level advance therefore gives 489 ms, not the 490 ms that 7/10 of
700 would suggest, because 700 × 0.7 evaluates to 489.99999999999994. The
model follows the code (`FloatScale.FirstIntervalIs489`).

Behaviour of the code that is modelled as written:
- The win path (`display_win_message`, main.py:370-371) does not return from
  `update`. The rest of the tick runs on the freshly reset state. The lose
  path does return (main.py:386).
- Balls fired by the boss join only the ball group, not `all_sprites`
  (main.py:156-159). They collide, but `draw` never shows them.
- `reset_game` keeps the player's arrows (main.py:259-290).
- The progress bar starts at 200 in `__init__` (main.py:181) but at 0 after
  every reset.

## Model

| member | source | states |
|---|---|---|
| `Rules.ClampAxis` | main.py:73 | the clamped coordinate keeps the 100 px sprite on screen, is unchanged when already inside, and sticks to the nearer edge otherwise |
| `Rules.AxisStep` | main.py:63-70 | a lone held key moves exactly 5 px its own way (left/up negative, right/down positive); both or neither held cancel to 0 |
| `Rules.PlayerStep` | main.py:61-73 | after `Player.update` the sprite lies on screen and has moved at most 5 px per axis from an on-screen start; on each axis separately, the keys' move is taken as is when it stays on screen and stops at the edge it would cross otherwise; with no key held it stays put |
| `Rules.Healed` | main.py:82-84 | `increase_hp` adds at most one point, never lifts hp above 10, and adds one exactly when hp is below 10 |
| `Rules.OffScreenMeansNoPixelOnScreen` | main.py:47-48 | a rectangle that the arrow/ball test calls off screen has no pixel on the screen |
| `FloatScale.TruncTimesSevenTenthsBounds` | main.py:415 | Python's `int(x * 0.7)` is ⌊7x/10⌋ or one less, for every x below 2^48 |
| `FloatScale.NextSpawnInterval` | main.py:415 | the new spawn interval is never below 140 ms |
| `FloatScale.NextSpawnIntervalBounds` | main.py:415 | from any interval of at least 140 ms the next lies between 140 and the old one, and is 140 or ⌊7/10 of the old⌋ or one less |
| `FloatScale.FirstIntervalIs489` | main.py:415 | `int(700 * 0.7)` is 489 |
| `Groups.Without` | main.py:46-49 | after the kills the group holds exactly its members that were not killed |
| `Groups.WithoutLength` | main.py:46-49 | killing never grows a group, and shrinks it exactly when some member is killed |
| `Groups.KillEach` | main.py:356-358 | the walk that lets each member kill itself leaves the same group as killing them all at once |
| `Groups.Collide` | main.py:375-377 | groupcollide's count equals the number of arrows removed and is at least the number of balls removed; nothing joins either group |
| `Groups.CollideRemoves` | main.py:375 | an arrow is removed exactly when some ball overlaps it; a removed ball overlapped an arrow; a ball that overlaps no arrow stays |
| `Groups.CollideKillsBalls` | main.py:375 | in a group without repeats, groupcollide kills ball i exactly when it overlaps an arrow that no earlier ball in the group overlaps |
| `Groups.CollideDistinct` | main.py:375 | the balls groupcollide leaves contain no sprite twice |
| `Groups.WithoutDistinct` | main.py:46-49 | killing members keeps a group free of repeats |
| `Groups.AppendFresh` | main.py:156-159 | adding new sprites with ids past every member keeps a group free of repeats |
| `Groups.CollideArrowsDistinct` | main.py:375 | the arrows groupcollide leaves contain no sprite twice |
| `Groups.GroupCollide` | main.py:375-377 | the loop over the ball group leaves exactly the groups and count of `Collide` |
| `FloatScale.TruncTimesSevenTenths` | main.py:415 | `int(x * 0.7)` as the interpreter evaluates it: x times the double nearest 0.7, rounded to 53 bits ties-to-even, truncated; its bounds are `TruncTimesSevenTenthsBounds` |
| `Rules.OffScreen` | main.py:47-48 | the self-kill test of arrows and balls (also main.py:111-112): the rectangle lies wholly past one screen edge; see `OffScreenMeansNoPixelOnScreen` |
| `Rules.Expired` | main.py:138 | a soybean is past its lifetime strictly after 3000 ms; see `SoybeanAtThreeSeconds` |
| `Rules.VolleyDue` | main.py:152 | the boss fires once at least 2000 ms have passed since its last volley; see `BossVolley` |
| `Session.Initial` | main.py:168-222 | the state `Game.__init__` builds: 7 hp, centred player, level 0, threshold 20, 700 ms, full bar, no boss; `Game.Game.constructor` is proved to build it |
| `Session.ResetGame` | main.py:259-290 | the state `reset_game` leaves; proved valid and idempotent in `ResetGameEstablishesInv` and `ResetGameIdempotent` |
| `Session.PlayerUpdate` | main.py:354 | the player's move of `Player.update`, by `Rules.PlayerStep` |
| `Session.ArrowsUpdate` | main.py:356 | the off-screen arrows leave the arrow group |
| `Session.BallsUpdate` | main.py:357 | the off-screen balls leave the ball group and all_sprites |
| `Session.SoybeansUpdate` | main.py:358 | the expired soybeans leave their group and all_sprites; see `MotionSoybeans` |
| `Session.Motion` | main.py:354-358 | the four sprite updates in their order; see `MotionKeepsInv` |
| `Session.BossUpdate` | main.py:150-159 | a due volley appends five new balls to the ball group only and records the time; see `BossVolley` |
| `Session.ArrowsHitBoss` | main.py:364-367 | arrows on the boss are killed and health drops 5 once; the boss leaves all_sprites at health 0 or below (main.py:161-164); see `BossPhaseDamage` |
| `Session.BossPhase` | main.py:360-371 | the boss block runs only while the boss is alive; its death triggers the win reset; see `BossPhaseDamage`, `BossPhaseKeepsInv` |
| `Session.ArrowsHitBalls` | main.py:375-379 | groupcollide and the count; see `ArrowsHitBallsCount`, `ArrowsHitBallsKills` |
| `Session.Collided` | main.py:376-379 | the groups left by groupcollide, the count grown by the arrows taken, the bar redrawn if it grew |
| `Session.BallsHitPlayer` | main.py:382-386 | the touching balls are killed, hp drops one, and the lose reset runs at 0; see `BallsHitPlayerEffect` |
| `Session.SoybeansHitPlayer` | main.py:389-391 | the touching soybeans are killed and hp healed once; see `SoybeansHitPlayerEffect` |
| `Session.StartBossLevel` | main.py:401-404 | a new full-health boss that last fired now joins all_sprites |
| `Session.NextLevel` | main.py:406-427 | the next level's threshold, zero count, empty bar, shrunk interval and picture, or past the table the boss; see `LevelAdvance`, `NextLevelKeepsInv` |
| `Session.LevelCheck` | main.py:394-395 | `next_level` runs when the count reaches the threshold and no boss exists; see `LevelAdvance` |
| `Session.BeforeBallCheck` | main.py:353-379 | `update` up to the player×ball check, and whether the win path ran |
| `Session.Tick` | main.py:353-395 | one call of `update`: the lose path ends the tick, the win path does not; see `TickKeepsInv`, `TickHp`, `TickBoss`, `SoybeanLifetime` |
| `Session.SpawnBall` | main.py:296-308 | a new ball joins its group and all_sprites; see `SpawnKeepsInv` |
| `Session.SpawnSoybean` | main.py:310-315 | a new soybean stamped now joins its group and all_sprites; see `SpawnKeepsInv` |
| `Session.Shoot` | main.py:340-342 | a new arrow joins the player's arrows; see `SpawnKeepsInv` |
| `Session.HandleEvent` | main.py:333-342 | one queued event: a spawn-timer event spawns a ball or a soybean, a click shoots, quit leaves the state alone; see `HandleEventKeeps` |
| `Session.HandleEvents` | main.py:332-342 | the whole queue handled in order; see `HandleEventsKeeps` |
| `Session.IntervalAt` | main.py:415 | the spawn interval at every level is at least 140 ms |
| `Session.ProgressBar` | main.py:397-399 | the bar length stays within 0..200 and is full once the count reaches the threshold |
| `Session.ReduceHealth` | main.py:161-164 | `reduce_health` lowers health by the amount, and the boss stays alive exactly when it was alive and its health is still positive |
| `Properties.ResetGameEstablishesInv` | main.py:259-290 | from any state whose player and arrow ids were issued, `reset_game` yields a state satisfying the session invariant (level 0 with its threshold, interval and picture, no boss, hp and position in range) |
| `Properties.ResetGameIdempotent` | main.py:259-290 | resetting twice, as the win and lose paths followed by `main_menu` do, equals resetting once; the arrows and the id counter survive a reset |
| `Properties.IntervalsNonIncreasing` | main.py:406-416 | across the regular level advances from 700 ms the interval never rises and never drops below 140 ms |
| `Properties.FirstAdvanceInterval` | main.py:415 | the second level spawns every 489 ms |
| `Properties.MotionKeepsInv` | main.py:354-358 | the sprite updates keep the invariant and touch neither hp, boss, level nor count |
| `Properties.BossPhaseKeepsInv` | main.py:360-371 | the boss block, including the win path's reset, keeps the invariant |
| `Properties.ArrowsHitBallsKeepsInv` | main.py:375-379 | the arrow×ball collision keeps the invariant |
| `Properties.NextLevelKeepsInv` | main.py:406-427 | `next_level` from a level without a boss keeps the invariant, including the threshold, picture and interval of the new level |
| `Properties.BallsHitPlayerKeepsInv` | main.py:382-386 | the player×ball collision, including the lose path's reset, keeps the invariant |
| `Properties.LevelCheckKeepsInv` | main.py:394-395 | the level check keeps the invariant |
| `Properties.BeforeBallCheckKeepsInv` | main.py:353-379 | the tick up to the player×ball check keeps the invariant |
| `Properties.TickKeepsInv` | main.py:353-395 | `Game.update` keeps hp in 1..10, the player on screen, the level at most 4 with a boss exactly at level 4, the level's threshold, picture and interval, every id issued, and no ball or arrow in its group twice |
| `Properties.BeforeBallCheckHp` | main.py:353-379 | before the player×ball check hp is unchanged, or 7 if the win path ran |
| `Properties.BallsHitPlayerEffect` | main.py:382-386 | one hit tick costs exactly one hp however many balls touch; the lose path runs exactly from hp 1; every touching ball is gone and, unless the game was lost, every other ball stays |
| `Properties.SoybeansHitPlayerEffect` | main.py:389-391 | every touching soybean is removed and hp is healed once if any touched |
| `Properties.LevelCheckKeeps` | main.py:394-395 | the level check leaves hp, balls and soybeans alone |
| `Properties.TickHp` | main.py:382-391 | over a tick hp drops by one if a ball hits and rises by at most one if a soybean is picked up, never above 10; the lose path runs exactly when a hit meets hp 1, and then the tick ends on the reset state |
| `Properties.TickClearsPlayerOverlaps` | main.py:382-391 | after the tick no ball and no soybean that overlapped the player remains |
| `Properties.BossPhaseDamage` | main.py:361-371 | exactly the arrows on the boss are removed (the others stay, even through the win reset), health drops by exactly 5 once per tick however many arrows hit, and the win path runs exactly when that takes health to 0 or below |
| `Properties.BossAfterBallCheck` | main.py:382-395 | after the boss block only the lose path removes the boss, and the level check cannot create one below the threshold |
| `Properties.TickBoss` | main.py:360-395 | over a whole tick the boss loses 5 health on a hit tick and none otherwise, and the win path runs exactly when a hit meets health 5 or less |
| `Properties.BossVolley` | main.py:150-159 | a due volley appends exactly five new balls behind the existing ones, none of them already present, and records the shot time; otherwise nothing changes |
| `Properties.MotionSoybeans` | main.py:136-139 | after the sprite updates exactly the soybeans within their 3000 ms remain |
| `Properties.BossPhaseSoybeans` | main.py:360-371 | the boss block leaves soybeans alone unless the win path empties them |
| `Properties.SoybeanLifetime` | main.py:136-139 | a soybean past 3000 ms is gone after the tick; one within it that is not picked up stays, unless a reset ran |
| `Properties.SoybeanAtThreeSeconds` | main.py:138 | a soybean survives at exactly 3000 ms and is gone at 3001 ms |
| `Properties.LevelAdvance` | main.py:394-427 | the level changes exactly when the count reaches the threshold and no boss exists; a regular advance loads the next threshold, zeroes the count, shrinks the interval and changes the picture; the advance past the table creates a full-health boss and leaves the counters; the level never passes 4 |
| `Properties.ArrowsHitBallsCount` | main.py:375-379 | the count grows by the number of arrows taken, which is at least the number of balls removed; the bar is redrawn only when something was destroyed |
| `Properties.ArrowsHitBallsKills` | main.py:375-379 | in a valid state, a ball leaves the ball group exactly when it is the first ball to overlap some arrow, and a destroyed ball also leaves all_sprites |
| `Properties.SpawnKeepsInv` | main.py:296-315 | spawning a ball or a soybean, or shooting, keeps the invariant, and the new sprite's id is in no group yet |
| `Properties.HandleEventKeeps` | main.py:332-342 | one event keeps the invariant, leaves hp, boss, level, count and threshold alone, and only appends to the ball, arrow and soybean groups |
| `Properties.HandleEventsKeeps` | main.py:321-323 | the same for every queue handled between two calls of `update` |
| `Properties.SharedArrowCountsOnce` | main.py:375-377 | one arrow over two balls is taken by the first ball, counts once, and the second ball survives |
| `Scenarios.HitStep` | main.py:382-386 | a hitting tick loses exactly from hp 1, and otherwise leaves one point less |
| `Scenarios.HpBeforeCall` | main.py:382-386 | before the i-th tick of a run of hitting ticks, with any events handled between ticks, the player has lost i points |
| `Scenarios.LossOnLastHit` | main.py:382-386 | with h hp, a run of hitting ticks, with any spawns and shots between them, loses on the h-th tick and on no earlier one |
| `Scenarios.SeventhHitLoses` | main.py:59 | from the starting 7 hp the seventh hitting tick loses and none before it |
| `Scenarios.BossHitStep` | main.py:365-371 | a tick that hits the boss wins exactly when the boss has at most 5 health, and otherwise leaves it 5 lower |
| `Scenarios.BossBeforeCall` | main.py:365-367 | before the i-th tick of a boss-hitting run, with any events handled between ticks, the boss has lost 5·i health |
| `Scenarios.BossFallsOnLastHit` | main.py:161-164 | a boss with h health falls on the ⌈h/5⌉-th hitting tick of a run with any spawns and shots between ticks, and on no earlier one |
| `Scenarios.TwentiethHitWins` | main.py:402 | the boss created with 100 health falls on the twentieth hitting tick, not before; arrows may be shot between ticks |
| `Game.Player.constructor` | main.py:53-59 | a new player has 7 hp and no arrows, and is centred on the screen |
| `Game.Player.Update` | main.py:61-73 | the new position is the clamped 5 px step of the held keys; nothing else changes |
| `Game.Player.Shoot` | main.py:75-77 | the new arrow is appended to the player's arrows |
| `Game.Player.ReduceHp` | main.py:79-80 | hp drops by one |
| `Game.Player.IncreaseHp` | main.py:82-84 | hp becomes the capped heal of the old hp |
| `Game.Game.constructor` | main.py:168-222 | the new game is the initial session (7 hp, level 0, threshold 20, 700 ms, full bar, no boss) and is valid |
| `Game.Game.ResetGame` | main.py:259-290 | the game becomes the reset of its old state |
| `Game.Game.SpawnBall` | main.py:296-308 | a fresh ball joins the ball group and all_sprites; validity is kept |
| `Game.Game.SpawnSoybean` | main.py:310-315 | a fresh soybean stamped with the current time joins its group and all_sprites; validity is kept |
| `Game.Game.Shoot` | main.py:340-342 | a fresh arrow joins the player's arrows; validity is kept |
| `Game.Game.HandleEvents` | main.py:332-342 | the loop over the queue changes the game exactly as `Session.HandleEvents` says; validity is kept |
| `Game.Game.UpdateProgressBar` | main.py:397-399 | the bar becomes 200 · min(count/threshold, 1); nothing else changes |
| `Game.Game.KillBalls` | main.py:111-113 | each killed ball leaves both the ball group and all_sprites |
| `Game.Game.KillSoybeans` | main.py:136-139 | each killed soybean leaves both its group and all_sprites |
| `Game.Game.ArrowsUpdate` | main.py:356 | exactly the off-screen arrows are removed |
| `Game.Game.BallsUpdate` | main.py:357 | exactly the off-screen balls are removed |
| `Game.Game.SoybeansUpdate` | main.py:358 | exactly the expired soybeans are removed |
| `Game.Game.BossShoot` | main.py:156-159 | the five-turn loop appends five fresh balls to the ball group and nothing else |
| `Game.Game.BossUpdate` | main.py:150-154 | the boss fires and records the time exactly when its cooldown has run out |
| `Game.Game.ArrowsHitBoss` | main.py:365-367 | the arrows on the boss are killed and the boss loses 5 health once; it leaves all_sprites when health reaches 0 |
| `Game.Game.ArrowsHitBalls` | main.py:375-379 | groupcollide and the count change the game exactly as `Session.ArrowsHitBalls` says |
| `Game.Game.Collided` | main.py:375-379 | removed balls also leave all_sprites, the count grows by the arrows taken, and the bar is redrawn when it grew |
| `Game.Game.BallsHitPlayer` | main.py:382-386 | touching balls are killed, hp drops by one, and the lose path resets the game exactly when hp reaches 0 |
| `Game.Game.SoybeansHitPlayer` | main.py:389-391 | touching soybeans are killed and hp is healed once |
| `Game.Game.StartBossLevel` | main.py:401-404 | a full-health living boss, whose last shot is now, appears and joins all_sprites |
| `Game.Game.NextLevel` | main.py:406-427 | the game advances exactly as `Session.NextLevel` says: next threshold, zero count, shrunk interval and new picture, or the boss |
| `Game.Game.Motion` | main.py:354-358 | the player, arrow, ball and soybean updates run in order |
| `Game.Game.BossPhase` | main.py:360-371 | the boss block runs only while the boss is alive, and the win path resets exactly when it dies |
| `Game.Game.Update` | main.py:353-395 | one call of `update` changes the game exactly as `Session.Tick` says and reports the lose and win paths; a valid game stays valid |

## Left out

- Rendering, fonts, images, the mouse cursor and the HUD (`draw`, `display_*_message`), and the menu loop (`main_menu`) are I/O, as are the console `print` calls of `start_boss_level` and `next_level` (main.py:404, main.py:424). So are the blocking `pygame.time.wait(5000)` calls. Only the reset these paths perform is modelled.
- Audio, `pygame.time.set_timer`, the `asyncio` wrapper and the `running` flag are left out. A quit event changes nothing in the modelled state; the modelled runs simply end. The queue `handle_events` reads is an input, as is the clock (the `now` of a frame), and every event in one queue is stamped with the same clock reading.
- Randomness is left out: spawn positions, edge choice and ball speeds.
- Float motion is left out: the sin/cos arrow heading, the `math.hypot` normalisation of ball velocity, and the `atan2` aim. Each frame instead supplies the post-motion rectangle of every arrow and ball.
- Rectangle overlap, i.e. pygame's collision tests, is not modelled. Each frame supplies which sprites overlap. The pygame library is not part of this model.
- `min_ball_speed`/`max_ball_speed` scaling is left out. `spawn_ball` overwrites `ball.speed` only after the velocity has been computed, so the scaled range never affects motion.
- `Session.ProgressBar` uses exact rationals for `balls_destroyed / total_balls_needed`, not double rounding. The bar is drawing state only.
- `Rect.clamp_ip` has a branch that centres a rectangle larger than the screen. It is left out because the player is always 100×100.
- `FloatScale.TruncTimesSevenTenthsBounds` is proved only below 2^48. The rounding to 53 bits moves the product by at most x/2 units of 2^-52, and the lower bound holds while 7x < 2^52. Intervals here never exceed 700.
- `FloatScale.NextSpawnIntervalBounds` requires the old interval to be below 2^48, for the same reason.
- `Scenarios.LossOnLastHit` requires each tick of the run to be a hit that neither picks up a soybean nor runs the win path, since either changes hp.
- `Scenarios.BossFallsOnLastHit` requires each tick of the run to hit the boss without running the lose path, since that removes the boss.
- Sprites are identified by ids from a counter. pygame's object identity and the membership of one sprite in several groups are modelled only as the same id in several sequences.
