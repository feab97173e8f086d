/** The game objects as main.py keeps them: a Player whose fields its
    methods update in place, and a Game holding the sprite groups, the
    level counters and the optional boss. Every method is proved to leave
    the objects in exactly the state the matching Session function gives. */
module Game {
  import opened Rules
  import opened Groups
  import FloatScale
  import Session
  import Properties

  class Player {
    var hp: int
    var x: int
    var y: int
    /** Index of the picture for the current level (player_images). */
    var image: nat
    /** The player's arrow group. */
    var arrows: seq<Id>

    /** Player.__init__ at the centre of the screen with 7 hp and no arrows. */
    constructor ()
      ensures hp == INITIAL_HP && x == PLAYER_START_X && y == PLAYER_START_Y
      ensures image == 0 && arrows == []
    {
      hp := INITIAL_HP;
      x, y := PLAYER_START_X, PLAYER_START_Y;
      image := 0;
      arrows := [];
    }

    /** Player.update: 5 px per held direction, then clamped to the screen. */
    method Update(keys: Keys)
      modifies this
      ensures (x, y) == PlayerStep(old(x), old(y), keys)
      ensures hp == old(hp) && image == old(image) && arrows == old(arrows)
    {
      if keys.left {
        x := x - PLAYER_SPEED;
      }
      if keys.right {
        x := x + PLAYER_SPEED;
      }
      if keys.up {
        y := y - PLAYER_SPEED;
      }
      if keys.down {
        y := y + PLAYER_SPEED;
      }
      x := ClampAxis(x, SCREEN_WIDTH);
      y := ClampAxis(y, SCREEN_HEIGHT);
    }

    /** Player.shoot: the arrow with id `id` joins the group. */
    method Shoot(id: Id)
      modifies this
      ensures arrows == old(arrows) + [id]
      ensures hp == old(hp) && x == old(x) && y == old(y) && image == old(image)
    {
      arrows := arrows + [id];
    }

    /** Player.reduce_hp. */
    method ReduceHp()
      modifies this
      ensures hp == old(hp) - 1
      ensures x == old(x) && y == old(y) && image == old(image) && arrows == old(arrows)
    {
      hp := hp - 1;
    }

    /** Player.increase_hp: one point, never above 10. */
    method IncreaseHp()
      modifies this
      ensures hp == Healed(old(hp))
      ensures x == old(x) && y == old(y) && image == old(image) && arrows == old(arrows)
    {
      if hp < MAX_HP {
        hp := hp + 1;
      }
    }
  }

  class Game {
    const player: Player
    var balls: seq<Id>
    var soybeans: seq<Session.Soybean>
    var allSprites: seq<Id>
    var level: nat
    var destroyed: int
    var needed: int
    var interval: nat
    var progress: real
    /** None while the `boss` attribute is absent. */
    var boss: Session.Option<Session.Boss>
    var nextId: Id

    /** The whole game as a Session state. */
    function Abs(): Session.State
      reads this, player
    {
      Session.State(player.hp, player.x, player.y, player.image, player.arrows,
                    balls, soybeans, allSprites, level, destroyed, needed, interval, progress,
                    boss, nextId)
    }

    predicate Valid()
      reads this, player
    {
      Session.Inv(Abs())
    }

    /** Game.__init__. */
    constructor ()
      ensures Abs() == Session.Initial() && Valid()
      ensures fresh(player)
    {
      player := new Player();
      balls, soybeans, allSprites := [], [], [Session.PLAYER_ID];
      level, destroyed, needed := 0, 0, LEVELS[0];
      interval := INITIAL_BALL_SPAWN_INTERVAL;
      progress := 200.0;
      boss := Session.None;
      nextId := Session.PLAYER_ID + 1;
    }

    /** Game.reset_game. */
    method ResetGame()
      modifies this, player
      ensures Abs() == Session.ResetGame(old(Abs()))
    {
      player.hp := INITIAL_HP;
      player.x, player.y := PLAYER_START_X, PLAYER_START_Y;
      player.image := 0;
      level, destroyed := 0, 0;
      needed := LEVELS[level];
      allSprites, balls, soybeans := [], [], [];
      allSprites := allSprites + [Session.PLAYER_ID];
      boss := Session.None;
      progress := 0.0;
      interval := INITIAL_BALL_SPAWN_INTERVAL;
    }

    /** Game.spawn_ball. */
    method SpawnBall()
      modifies this
      ensures Abs() == Session.SpawnBall(old(Abs()))
      ensures old(Valid()) ==> Valid()
    {
      if Valid() {
        Properties.SpawnKeepsInv(Abs(), 0);
      }
      balls := balls + [nextId];
      allSprites := allSprites + [nextId];
      nextId := nextId + 1;
    }

    /** Game.spawn_soybean, with the clock reading `now`. */
    method SpawnSoybean(now: int)
      modifies this
      ensures Abs() == Session.SpawnSoybean(old(Abs()), now)
      ensures old(Valid()) ==> Valid()
    {
      if Valid() {
        Properties.SpawnKeepsInv(Abs(), now);
      }
      var bean := Session.Soybean(nextId, now);
      soybeans := soybeans + [bean];
      allSprites := allSprites + [nextId];
      nextId := nextId + 1;
    }

    /** The mouse-click branch of Game.handle_events. */
    method Shoot()
      modifies this, player
      ensures Abs() == Session.Shoot(old(Abs()))
      ensures old(Valid()) ==> Valid()
    {
      if Valid() {
        Properties.SpawnKeepsInv(Abs(), 0);
      }
      player.Shoot(nextId);
      nextId := nextId + 1;
    }

    /** Game.handle_events: the queued events in order, all at the clock
        reading `now`. */
    method HandleEvents(events: seq<Session.Event>, now: int)
      modifies this, player
      ensures Abs() == Session.HandleEvents(old(Abs()), events, now)
      ensures old(Valid()) ==> Valid()
    {
      for i := 0 to |events|
        invariant Abs() == Session.HandleEvents(old(Abs()), events[..i], now)
        invariant old(Valid()) ==> Valid()
      {
        assert events[..i + 1][..i] == events[..i];
        match events[i]
        case Quit =>
        case SpawnBallEvent => SpawnBall();
        case SpawnSoybeanEvent => SpawnSoybean(now);
        case MouseDown => Shoot();
      }
      assert events[..|events|] == events;
    }

    /** Game.update_progress_bar. */
    method UpdateProgressBar()
      requires needed > 0
      modifies this
      ensures Abs() == old(Abs().(progress := Session.ProgressBar(destroyed, needed)))
    {
      var ratio := destroyed as real / needed as real;
      progress := 200.0 * (if ratio < 1.0 then ratio else 1.0);
    }

    /** kill() on each ball in `dead`: it leaves the ball group and all_sprites. */
    method KillBalls(dead: set<Id>)
      modifies this
      ensures Abs() == old(Abs()).(balls := Without(old(balls), dead), allSprites := Without(old(allSprites), dead))
    {
      balls := KillEach(balls, dead);
      allSprites := KillEach(allSprites, dead);
    }

    /** kill() on each soybean in `dead`: it leaves the soybean group and all_sprites. */
    method KillSoybeans(dead: set<Session.Soybean>)
      modifies this
      ensures Abs() == old(Abs()).(soybeans := Without(old(soybeans), dead),
                                   allSprites := Without(old(allSprites), Session.Ids(dead)))
    {
      soybeans := KillEach(soybeans, dead);
      allSprites := KillEach(allSprites, Session.Ids(dead));
    }

    /** self.player.arrows.update(). */
    method ArrowsUpdate(rectOf: Id -> Rect)
      modifies player
      ensures Abs() == Session.ArrowsUpdate(old(Abs()), rectOf)
    {
      player.arrows := KillEach(player.arrows, Session.OffScreenIds(player.arrows, rectOf));
    }

    /** self.balls.update(). */
    method BallsUpdate(rectOf: Id -> Rect)
      modifies this
      ensures Abs() == Session.BallsUpdate(old(Abs()), rectOf)
    {
      KillBalls(Session.OffScreenIds(balls, rectOf));
    }

    /** self.soybeans.update(). */
    method SoybeansUpdate(now: int)
      modifies this
      ensures Abs() == Session.SoybeansUpdate(old(Abs()), now)
    {
      KillSoybeans(Session.ExpiredBeans(soybeans, now));
    }

    /** Boss.shoot: five balls, one per turn of the loop. */
    method BossShoot()
      modifies this
      ensures Abs() == old(Abs()).(balls := old(balls) + FreshIds(old(nextId), BOSS_VOLLEY),
                                   nextId := old(nextId) + BOSS_VOLLEY)
    {
      for k := 0 to BOSS_VOLLEY
        invariant balls == old(balls) + FreshIds(old(nextId), k)
        invariant nextId == old(nextId) + k
        invariant Abs() == old(Abs()).(balls := balls, nextId := nextId)
      {
        assert FreshIds(old(nextId), k + 1) == FreshIds(old(nextId), k) + [nextId];
        balls := balls + [nextId];
        nextId := nextId + 1;
      }
    }

    /** Boss.update: fire when the cooldown has run out. */
    method BossUpdate(now: int)
      requires boss.Some?
      modifies this
      ensures Abs() == Session.BossUpdate(old(Abs()), now)
    {
      if VolleyDue(now, boss.value.lastShot) {
        BossShoot();
        boss := Session.Some(boss.value.(lastShot := now));
      }
    }

    /** spritecollide(boss, arrows, True) and Boss.reduce_health(5). */
    method ArrowsHitBoss(bossHits: set<Id>)
      requires boss.Some?
      modifies this, player
      ensures Abs() == Session.ArrowsHitBoss(old(Abs()), bossHits)
    {
      if Struck(player.arrows, bossHits) {
        player.arrows := KillEach(player.arrows, bossHits);
        var b := boss.value;
        var health := b.health - BOSS_DAMAGE;
        if health <= 0 {
          allSprites := KillEach(allSprites, {b.id});
        }
        boss := Session.Some(b.(health := health, alive := b.alive && health > 0));
      }
    }

    /** groupcollide(balls, arrows, True, True) and the kill count. */
    method ArrowsHitBalls(hits: set<(Id, Id)>)
      requires needed > 0
      modifies this, player
      ensures Abs() == Session.ArrowsHitBalls(old(Abs()), hits)
    {
      var ballsLeft, arrowsLeft, count := GroupCollide(balls, player.arrows, hits);
      Collided(Collisions(ballsLeft, arrowsLeft, count));
    }

    /** What groupcollide's kills and the count do to the game once it has
        left `c`. */
    method Collided(c: Collisions)
      requires needed > 0
      modifies this, player
      ensures Abs() == Session.Collided(old(Abs()), c)
    {
      allSprites := KillEach(allSprites, Session.Dropped(balls, c.ballsLeft));
      balls := c.ballsLeft;
      player.arrows := c.arrowsLeft;
      destroyed := destroyed + c.destroyed;
      if c.destroyed > 0 {
        UpdateProgressBar();
      }
    }

    /** spritecollide(player, balls, True) and reduce_hp; `lost` tells that
        hp reached 0 and the lose path reset the game. */
    method BallsHitPlayer(touches: set<Id>) returns (lost: bool)
      modifies this, player
      ensures (Abs(), lost) == Session.BallsHitPlayer(old(Abs()), touches)
    {
      lost := false;
      if Struck(balls, touches) {
        KillBalls(Session.Overlapping(balls, touches));
        player.ReduceHp();
        if player.hp <= 0 {
          ResetGame();
          lost := true;
        }
      }
    }

    /** spritecollide(player, soybeans, True) and increase_hp. */
    method SoybeansHitPlayer(touches: set<Id>)
      modifies this, player
      ensures Abs() == Session.SoybeansHitPlayer(old(Abs()), touches)
    {
      var dead := Session.BeansOverlapping(soybeans, touches);
      if dead != {} {
        KillSoybeans(dead);
        player.IncreaseHp();
      }
    }

    /** Game.start_boss_level. */
    method StartBossLevel(now: int)
      modifies this
      ensures Abs() == Session.StartBossLevel(old(Abs()), now)
    {
      boss := Session.Some(Session.Boss(nextId, BOSS_HEALTH, now, true));
      allSprites := allSprites + [nextId];
      nextId := nextId + 1;
    }

    /** Game.next_level. */
    method NextLevel(now: int)
      modifies this, player
      ensures Abs() == Session.NextLevel(old(Abs()), now)
    {
      level := level + 1;
      if level < |LEVELS| {
        needed := LEVELS[level];
        destroyed := 0;
        progress := 0.0;
        interval := FloatScale.NextSpawnInterval(interval);
        player.image := level;
      } else {
        StartBossLevel(now);
      }
    }

    /** The sprite updates that open Game.update. */
    method Motion(f: Session.Frame)
      modifies this, player
      ensures Abs() == Session.Motion(old(Abs()), f)
    {
      player.Update(f.keys);
      ArrowsUpdate(f.rectOf);
      BallsUpdate(f.rectOf);
      SoybeansUpdate(f.now);
    }

    /** The boss block of Game.update; `won` tells that the win path ran. */
    method BossPhase(f: Session.Frame) returns (won: bool)
      modifies this, player
      ensures (Abs(), won) == Session.BossPhase(old(Abs()), f)
    {
      won := false;
      if boss.Some? && boss.value.alive {
        BossUpdate(f.now);
        ArrowsHitBoss(f.bossHits);
        if !boss.value.alive {
          ResetGame();
          won := true;
        }
      }
    }

    /** Game.update: one frame of the game. */
    method Update(f: Session.Frame) returns (lost: bool, won: bool)
      requires needed > 0
      modifies this, player
      ensures Session.Outcome(Abs(), lost, won) == Session.Tick(old(Abs()), f)
      ensures old(Valid()) ==> Valid()
    {
      if Valid() {
        Properties.TickKeepsInv(Abs(), f);
      }
      Motion(f);
      won := BossPhase(f);
      ArrowsHitBalls(f.arrowHits);
      assert (Abs(), won) == Session.BeforeBallCheck(old(Abs()), f);
      lost := BallsHitPlayer(f.playerTouches);
      if lost {
        return;
      }
      SoybeansHitPlayer(f.playerTouches);
      if destroyed >= needed && boss.None? {
        NextLevel(f.now);
      }
    }
  }
}
