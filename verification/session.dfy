/** The state of one game session as a value, and one call of
    `Game.update` (plus `next_level`, `start_boss_level` and `reset_game`)
    as a function from state to state. The classes in module Game are
    proved to change their fields exactly as these functions say. */
module Session {
  import opened Rules
  import opened Groups
  import opened FloatScale

  datatype Option<T> = None | Some(value: T)

  /** The boss sprite: its health, when it last fired, and whether it is
      still in its groups (pygame's `alive()`). */
  datatype Boss = Boss(id: Id, health: int, lastShot: int, alive: bool)

  datatype Soybean = Soybean(id: Id, spawnTime: int)

  /** Everything `Game.update` reads or writes. `x`, `y` are the top-left
      corner of the player's 100x100 rectangle; `image` indexes the
      player's per-level picture; `boss` is None while the attribute is
      absent; `nextId` names the next sprite to be created. */
  datatype State = State(
    hp: int, x: int, y: int, image: nat, arrows: seq<Id>,
    balls: seq<Id>, soybeans: seq<Soybean>, allSprites: seq<Id>,
    level: nat, destroyed: int, needed: int, interval: nat, progress: real,
    boss: Option<Boss>, nextId: Id)

  /** What the outside world hands one tick: the clock, the held keys, where
      each arrow and ball is after this tick's move, and which sprites
      overlap (arrows with the boss, (ball, arrow) pairs, and balls or
      soybeans with the player). */
  datatype Frame = Frame(
    now: int, keys: Keys, rectOf: Id -> Rect,
    bossHits: set<Id>, arrowHits: set<(Id, Id)>, playerTouches: set<Id>)

  /** The state after a tick, and whether the lose or the win path ran. */
  datatype Outcome = Outcome(state: State, lost: bool, won: bool)

  const PLAYER_ID: Id := 0

  function Min(a: int, b: int): int { if a < b then a else b }

  /** The spawn interval after `k` regular level advances. */
  function IntervalAt(k: nat): (r: nat)
    ensures r >= MIN_BALL_SPAWN_INTERVAL
  {
    if k == 0 then INITIAL_BALL_SPAWN_INTERVAL else NextSpawnInterval(IntervalAt(k - 1))
  }

  /** The soybean ids among `beans`. */
  function Ids(beans: set<Soybean>): set<Id>
  {
    set b | b in beans :: b.id
  }

  /** Every sprite id in the state is one already handed out. */
  predicate IdsIssued(s: State)
  {
    && PLAYER_ID < s.nextId
    && Below(s.arrows, s.nextId) && Below(s.balls, s.nextId) && Below(s.allSprites, s.nextId)
    && (forall b :: b in s.soybeans ==> b.id < s.nextId)
    && (s.boss.Some? ==> s.boss.value.id < s.nextId)
  }

  /** What holds between ticks. */
  predicate Inv(s: State)
  {
    && 1 <= s.hp <= MAX_HP
    && OnScreen(s.x, s.y)
    && s.level <= BOSS_LEVEL
    && s.image == Min(s.level, |LEVELS| - 1)
    && s.needed == LEVELS[Min(s.level, |LEVELS| - 1)]
    && s.interval == IntervalAt(Min(s.level, |LEVELS| - 1))
    && s.destroyed >= 0
    && 0.0 <= s.progress <= 200.0
    && (s.boss.Some? <==> s.level == BOSS_LEVEL)
    && (s.boss.Some? ==> s.boss.value.alive && s.boss.value.health > 0)
    && IdsIssued(s)
    && Distinct(s.balls) && Distinct(s.arrows)
  }

  /** Game.__init__: note the progress bar starts full at 200. */
  function Initial(): State
  {
    State(INITIAL_HP, PLAYER_START_X, PLAYER_START_Y, 0, [],
          [], [], [PLAYER_ID],
          0, 0, LEVELS[0], INITIAL_BALL_SPAWN_INTERVAL, 200.0,
          None, PLAYER_ID + 1)
  }

  /** Game.reset_game. The player's arrows and the id counter are kept. */
  function ResetGame(s: State): State
  {
    s.(hp := INITIAL_HP, x := PLAYER_START_X, y := PLAYER_START_Y, image := 0,
       level := 0, destroyed := 0, needed := LEVELS[0],
       allSprites := [PLAYER_ID], balls := [], soybeans := [],
       boss := None, progress := 0.0, interval := INITIAL_BALL_SPAWN_INTERVAL)
  }

  /** Game.update_progress_bar: 200 * min(destroyed / needed, 1), on exact reals. */
  function ProgressBar(destroyed: int, needed: int): (r: real)
    requires needed > 0
    ensures destroyed >= 0 ==> 0.0 <= r <= 200.0
    ensures destroyed >= needed ==> r == 200.0
  {
    var progress := destroyed as real / needed as real;
    200.0 * (if progress < 1.0 then progress else 1.0)
  }

  /** Player.update. */
  function PlayerUpdate(s: State, keys: Keys): State
  {
    var pos := PlayerStep(s.x, s.y, keys);
    s.(x := pos.0, y := pos.1)
  }

  function OffScreenIds(group: seq<Id>, rectOf: Id -> Rect): set<Id>
  {
    set a | a in group && OffScreen(rectOf(a))
  }

  /** self.player.arrows.update(): every arrow that left the screen is killed. */
  function ArrowsUpdate(s: State, rectOf: Id -> Rect): State
  {
    s.(arrows := Without(s.arrows, OffScreenIds(s.arrows, rectOf)))
  }

  /** self.balls.update(): every ball that left the screen is killed. */
  function BallsUpdate(s: State, rectOf: Id -> Rect): State
  {
    var dead := OffScreenIds(s.balls, rectOf);
    s.(balls := Without(s.balls, dead), allSprites := Without(s.allSprites, dead))
  }

  /** The members of `before` that are no longer in `after`. */
  function Dropped(before: seq<Id>, after: seq<Id>): set<Id>
  {
    set b | b in before && b !in after
  }

  /** The members of `group` that overlap the player. */
  function Overlapping(group: seq<Id>, touches: set<Id>): set<Id>
  {
    set b | b in group && b in touches
  }

  /** The soybeans that overlap the player. */
  function BeansOverlapping(beans: seq<Soybean>, touches: set<Id>): set<Soybean>
  {
    set b | b in beans && b.id in touches
  }

  function ExpiredBeans(beans: seq<Soybean>, now: int): set<Soybean>
  {
    set b | b in beans && Expired(now, b.spawnTime)
  }

  /** self.soybeans.update(): every soybean past its lifetime is killed. */
  function SoybeansUpdate(s: State, now: int): State
  {
    var dead := ExpiredBeans(s.soybeans, now);
    s.(soybeans := Without(s.soybeans, dead), allSprites := Without(s.allSprites, Ids(dead)))
  }

  /** Boss.update with Boss.shoot: when due, five balls join the ball group
      (not all_sprites) and the shot time becomes `now`. */
  function BossUpdate(s: State, now: int): State
    requires s.boss.Some?
  {
    if VolleyDue(now, s.boss.value.lastShot) then
      s.(balls := s.balls + FreshIds(s.nextId, BOSS_VOLLEY),
         nextId := s.nextId + BOSS_VOLLEY,
         boss := Some(s.boss.value.(lastShot := now)))
    else s
  }

  /** Boss.reduce_health: the boss is killed once its health is at most 0. */
  function ReduceHealth(b: Boss, amount: int): (r: Boss)
    ensures r.health == b.health - amount && r.id == b.id && r.lastShot == b.lastShot
    ensures r.alive <==> b.alive && r.health > 0
  {
    var health := b.health - amount;
    b.(health := health, alive := b.alive && health > 0)
  }

  /** spritecollide(boss, arrows, True), then reduce_health(5) once if any
      arrow was there. */
  function ArrowsHitBoss(s: State, bossHits: set<Id>): State
    requires s.boss.Some?
  {
    if Struck(s.arrows, bossHits) then
      var b := ReduceHealth(s.boss.value, BOSS_DAMAGE);
      s.(arrows := Without(s.arrows, bossHits), boss := Some(b),
         allSprites := if b.health <= 0 then Without(s.allSprites, {b.id}) else s.allSprites)
    else s
  }

  /** The boss block of Game.update; the flag says the win path ran. */
  function BossPhase(s: State, f: Frame): (State, bool)
  {
    if s.boss.Some? && s.boss.value.alive then
      var t := ArrowsHitBoss(BossUpdate(s, f.now), f.bossHits);
      if !t.boss.value.alive then (ResetGame(t), true) else (t, false)
    else (s, false)
  }

  /** groupcollide(balls, arrows, True, True) and the kill count. */
  function ArrowsHitBalls(s: State, hits: set<(Id, Id)>): State
    requires s.needed > 0
  {
    Collided(s, Collide(s.balls, s.arrows, hits))
  }

  /** The state once groupcollide has left `c`: the removed balls also leave
      all_sprites, the count grows, and the bar is redrawn if anything was
      destroyed. */
  function Collided(s: State, c: Collisions): State
    requires s.needed > 0
  {
    var destroyed := s.destroyed + c.destroyed;
    s.(balls := c.ballsLeft, arrows := c.arrowsLeft,
       allSprites := Without(s.allSprites, Dropped(s.balls, c.ballsLeft)),
       destroyed := destroyed,
       progress := if c.destroyed > 0 then ProgressBar(destroyed, s.needed) else s.progress)
  }

  /** spritecollide(player, balls, True): one hp lost however many balls hit;
      the lose path runs when hp reaches 0. */
  function BallsHitPlayer(s: State, touches: set<Id>): (State, bool)
  {
    if Struck(s.balls, touches) then
      var dead := Overlapping(s.balls, touches);
      var t := s.(balls := Without(s.balls, dead), allSprites := Without(s.allSprites, dead), hp := s.hp - 1);
      if t.hp <= 0 then (ResetGame(t), true) else (t, false)
    else (s, false)
  }

  /** spritecollide(player, soybeans, True): one hp gained however many
      soybeans were picked up. */
  function SoybeansHitPlayer(s: State, touches: set<Id>): State
  {
    var dead := BeansOverlapping(s.soybeans, touches);
    if dead != {} then
      s.(soybeans := Without(s.soybeans, dead), allSprites := Without(s.allSprites, Ids(dead)), hp := Healed(s.hp))
    else s
  }

  /** Game.start_boss_level: a fresh boss at full health that last fired now. */
  function StartBossLevel(s: State, now: int): State
  {
    s.(boss := Some(Boss(s.nextId, BOSS_HEALTH, now, true)),
       allSprites := s.allSprites + [s.nextId], nextId := s.nextId + 1)
  }

  /** Game.next_level. */
  function NextLevel(s: State, now: int): State
  {
    var level := s.level + 1;
    if level < |LEVELS| then
      s.(level := level, needed := LEVELS[level], destroyed := 0, progress := 0.0,
         interval := NextSpawnInterval(s.interval), image := level)
    else StartBossLevel(s.(level := level), now)
  }

  /** The last check of Game.update. */
  function LevelCheck(s: State, now: int): State
  {
    if s.destroyed >= s.needed && s.boss.None? then NextLevel(s, now) else s
  }

  /** Game.spawn_ball: a new ball joins the ball group and all_sprites. Its
      position and speed are random and not part of this state. */
  function SpawnBall(s: State): State
  {
    s.(balls := s.balls + [s.nextId], allSprites := s.allSprites + [s.nextId], nextId := s.nextId + 1)
  }

  /** Game.spawn_soybean: a new soybean stamped with the current time. */
  function SpawnSoybean(s: State, now: int): State
  {
    s.(soybeans := s.soybeans + [Soybean(s.nextId, now)], allSprites := s.allSprites + [s.nextId],
       nextId := s.nextId + 1)
  }

  /** Player.shoot on a mouse click: a new arrow joins the player's arrows. */
  function Shoot(s: State): State
  {
    s.(arrows := s.arrows + [s.nextId], nextId := s.nextId + 1)
  }

  /** The events Game.handle_events reacts to: closing the window, the two
      spawn timers, and a mouse click. */
  datatype Event = Quit | SpawnBallEvent | SpawnSoybeanEvent | MouseDown

  /** One branch of handle_events. Quit only clears the loop's running flag,
      which is not part of this state. */
  function HandleEvent(s: State, e: Event, now: int): State
  {
    match e
    case Quit => s
    case SpawnBallEvent => SpawnBall(s)
    case SpawnSoybeanEvent => SpawnSoybean(s, now)
    case MouseDown => Shoot(s)
  }

  /** Game.handle_events: the queued events, handled in order. */
  function HandleEvents(s: State, events: seq<Event>, now: int): State
  {
    if events == [] then s
    else HandleEvent(HandleEvents(s, events[..|events| - 1], now), events[|events| - 1], now)
  }

  /** The sprites' own updates at the start of Game.update. */
  function Motion(s: State, f: Frame): State
  {
    SoybeansUpdate(BallsUpdate(ArrowsUpdate(PlayerUpdate(s, f.keys), f.rectOf), f.rectOf), f.now)
  }

  /** Game.update up to the player-and-ball check, and whether the win path ran. */
  function BeforeBallCheck(s: State, f: Frame): (State, bool)
    requires s.needed > 0
  {
    var (t, won) := BossPhase(Motion(s, f), f);
    (ArrowsHitBalls(t, f.arrowHits), won)
  }

  /** One call of Game.update. */
  function Tick(s: State, f: Frame): Outcome
    requires s.needed > 0
  {
    var (t, won) := BeforeBallCheck(s, f);
    var (u, lost) := BallsHitPlayer(t, f.playerTouches);
    if lost then Outcome(u, true, won)
    else Outcome(LevelCheck(SoybeansHitPlayer(u, f.playerTouches), f.now), false, won)
  }
}
