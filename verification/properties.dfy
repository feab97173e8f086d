/** What one tick of the session, and runs of ticks, guarantee. */
module Properties {
  import opened Rules
  import opened Groups
  import opened FloatScale
  import opened Session

  lemma ResetGameEstablishesInv(s: State)
    requires PLAYER_ID < s.nextId && Below(s.arrows, s.nextId) && Distinct(s.arrows)
    ensures Inv(ResetGame(s))
  {
  }

  /** main_menu resets again after the win or lose path's reset: harmless. */
  lemma ResetGameIdempotent(s: State)
    ensures ResetGame(ResetGame(s)) == ResetGame(s)
    ensures ResetGame(s).arrows == s.arrows && ResetGame(s).nextId == s.nextId
  {
  }

  /** Starting from 700 ms, each regular level advance keeps the interval
      between 140 and its previous value. */
  lemma {:induction false} IntervalsNonIncreasing(k: nat)
    requires k < |LEVELS| - 1
    ensures MIN_BALL_SPAWN_INTERVAL <= IntervalAt(k + 1) <= IntervalAt(k) <= INITIAL_BALL_SPAWN_INTERVAL
  {
    if k > 0 {
      IntervalsNonIncreasing(k - 1);
    }
    NextSpawnIntervalBounds(IntervalAt(k));
  }

  /** The first advance yields 489 ms, one below 7/10 of 700. */
  lemma FirstAdvanceInterval()
    ensures IntervalAt(1) == 489
  {
    FirstIntervalIs489();
  }

  lemma MotionKeepsInv(s: State, f: Frame)
    requires Inv(s)
    ensures Inv(Motion(s, f))
    ensures Motion(s, f).hp == s.hp && Motion(s, f).boss == s.boss
    ensures Motion(s, f).level == s.level && Motion(s, f).destroyed == s.destroyed
  {
    WithoutDistinct(s.arrows, OffScreenIds(s.arrows, f.rectOf));
    WithoutDistinct(s.balls, OffScreenIds(s.balls, f.rectOf));
  }

  lemma BossPhaseKeepsInv(s: State, f: Frame)
    requires Inv(s)
    ensures Inv(BossPhase(s, f).0)
  {
    if s.boss.Some? {
      AppendFresh(s.balls, s.nextId, BOSS_VOLLEY);
      WithoutDistinct(s.arrows, f.bossHits);
      var t := ArrowsHitBoss(BossUpdate(s, f.now), f.bossHits);
      if !t.boss.value.alive {
        ResetGameEstablishesInv(t);
      }
    }
  }

  lemma ArrowsHitBallsKeepsInv(s: State, hits: set<(Id, Id)>)
    requires Inv(s)
    ensures Inv(ArrowsHitBalls(s, hits))
  {
    CollideDistinct(s.balls, s.arrows, hits);
    CollideArrowsDistinct(s.balls, s.arrows, hits);
  }

  lemma NextLevelKeepsInv(s: State, now: int)
    requires Inv(s) && s.boss.None?
    ensures Inv(NextLevel(s, now))
  {
    assert s.level < |LEVELS|;
  }

  lemma BallsHitPlayerKeepsInv(s: State, touches: set<Id>)
    requires Inv(s)
    ensures Inv(BallsHitPlayer(s, touches).0)
  {
    WithoutDistinct(s.balls, Overlapping(s.balls, touches));
    if Struck(s.balls, touches) && s.hp == 1 {
      var dead := Overlapping(s.balls, touches);
      ResetGameEstablishesInv(s.(balls := Without(s.balls, dead), allSprites := Without(s.allSprites, dead), hp := s.hp - 1));
    }
  }

  lemma LevelCheckKeepsInv(s: State, now: int)
    requires Inv(s)
    ensures Inv(LevelCheck(s, now))
  {
    if s.destroyed >= s.needed && s.boss.None? {
      NextLevelKeepsInv(s, now);
    }
  }

  lemma BeforeBallCheckKeepsInv(s: State, f: Frame)
    requires Inv(s)
    ensures Inv(BeforeBallCheck(s, f).0)
  {
    var m := Motion(s, f);
    MotionKeepsInv(s, f);
    BossPhaseKeepsInv(m, f);
    ArrowsHitBallsKeepsInv(BossPhase(m, f).0, f.arrowHits);
  }

  /** Game.update keeps the session invariant: hp in [1, 10], level at most
      4 with the boss present exactly at level 4, the threshold, picture and
      spawn interval those of the level, and ids all issued. */
  lemma TickKeepsInv(s: State, f: Frame)
    requires Inv(s)
    ensures Inv(Tick(s, f).state)
  {
    var t := BeforeBallCheck(s, f).0;
    BeforeBallCheckKeepsInv(s, f);
    var u := BallsHitPlayer(t, f.playerTouches).0;
    BallsHitPlayerKeepsInv(t, f.playerTouches);
    if !BallsHitPlayer(t, f.playerTouches).1 {
      var v := SoybeansHitPlayer(u, f.playerTouches);
      assert Inv(v);
      LevelCheckKeepsInv(v, f.now);
    }
  }

  /** A ball still in the group overlaps the player when that is checked. */
  predicate BallHit(s: State, f: Frame)
    requires s.needed > 0
  {
    Struck(BeforeBallCheck(s, f).0.balls, f.playerTouches)
  }

  /** A soybean still in the group overlaps the player when that is checked. */
  predicate BeanPickup(s: State, f: Frame)
    requires s.needed > 0
  {
    exists b :: b in BeforeBallCheck(s, f).0.soybeans && b.id in f.playerTouches
  }

  lemma BeforeBallCheckHp(s: State, f: Frame)
    requires Inv(s)
    ensures BeforeBallCheck(s, f).0.hp == if BeforeBallCheck(s, f).1 then INITIAL_HP else s.hp
  {
    MotionKeepsInv(s, f);
  }

  lemma BallsHitPlayerEffect(t: State, touches: set<Id>)
    requires t.hp >= 1
    ensures var (u, lost) := BallsHitPlayer(t, touches);
      && (lost <==> Struck(t.balls, touches) && t.hp == 1)
      && (lost ==> u == ResetGame(u))
      && (!lost ==> u.hp == t.hp - (if Struck(t.balls, touches) then 1 else 0))
      && (!lost ==> u.soybeans == t.soybeans && u.boss == t.boss && u.level == t.level)
      && (forall b :: b in touches ==> b !in u.balls)
      && (!lost ==> forall b :: b in t.balls && b !in touches ==> b in u.balls)
  {
  }

  lemma SoybeansHitPlayerEffect(u: State, touches: set<Id>)
    ensures var v := SoybeansHitPlayer(u, touches);
      && v.hp == (if exists b :: b in u.soybeans && b.id in touches then Healed(u.hp) else u.hp)
      && (forall b :: b in v.soybeans ==> b in u.soybeans && b.id !in touches)
      && v.balls == u.balls && v.boss == u.boss && v.level == u.level
  {
    var dead := BeansOverlapping(u.soybeans, touches);
    if b :| b in u.soybeans && b.id in touches {
      assert b in dead;
    }
  }

  lemma LevelCheckKeeps(v: State, now: int)
    ensures var w := LevelCheck(v, now);
      w.hp == v.hp && w.balls == v.balls && w.soybeans == v.soybeans
  {
  }

  /** Player hp over one tick: however many balls hit, one point is lost;
      the lose path runs exactly when that takes hp from 1 to 0 (and then
      the rest of the tick is skipped); however many soybeans are picked
      up, at most one point is gained, never above 10. */
  lemma TickHp(s: State, f: Frame)
    requires Inv(s)
    ensures var o := Tick(s, f);
      var h := (if o.won then INITIAL_HP else s.hp) - (if BallHit(s, f) then 1 else 0);
      && (o.lost <==> !o.won && BallHit(s, f) && s.hp == 1)
      && (o.lost ==> o.state == ResetGame(o.state))
      && (!o.lost ==> o.state.hp == if BeanPickup(s, f) then Healed(h) else h)
      && (!o.lost ==> h <= o.state.hp <= h + 1 && o.state.hp <= MAX_HP)
  {
    BeforeBallCheckHp(s, f);
    BeforeBallCheckKeepsInv(s, f);
    var (t, won) := BeforeBallCheck(s, f);
    BallsHitPlayerEffect(t, f.playerTouches);
    var (u, lost) := BallsHitPlayer(t, f.playerTouches);
    if !lost {
      SoybeansHitPlayerEffect(u, f.playerTouches);
      LevelCheckKeeps(SoybeansHitPlayer(u, f.playerTouches), f.now);
    }
  }

  /** Every ball and every soybean that overlaps the player is gone after
      the tick. */
  lemma TickClearsPlayerOverlaps(s: State, f: Frame)
    requires Inv(s)
    ensures forall b :: b in f.playerTouches ==> b !in Tick(s, f).state.balls
    ensures forall b :: b in Tick(s, f).state.soybeans ==> b.id !in f.playerTouches
  {
    BeforeBallCheckKeepsInv(s, f);
    var (t, won) := BeforeBallCheck(s, f);
    BallsHitPlayerEffect(t, f.playerTouches);
    var (u, lost) := BallsHitPlayer(t, f.playerTouches);
    if !lost {
      SoybeansHitPlayerEffect(u, f.playerTouches);
      LevelCheckKeeps(SoybeansHitPlayer(u, f.playerTouches), f.now);
    }
  }

  /** An arrow that overlaps the living boss is still flying when that is checked. */
  predicate BossStruck(s: State, f: Frame)
  {
    s.boss.Some? && s.boss.value.alive && Struck(Motion(s, f).arrows, f.bossHits)
  }

  /** The boss block: all arrows on the boss are removed, health drops by 5
      once per tick however many arrows hit, and the win path runs exactly
      when that takes health to 0 or below. */
  lemma BossPhaseDamage(s: State, f: Frame)
    requires Inv(s) && s.boss.Some?
    ensures var (t, won) := BossPhase(Motion(s, f), f);
      && (won <==> BossStruck(s, f) && s.boss.value.health <= BOSS_DAMAGE)
      && (won ==> t.boss.None? && t.level == 0 && t.balls == [])
      && (!won ==> t.boss.Some? && t.boss.value.alive
                   && t.boss.value.health == s.boss.value.health - (if BossStruck(s, f) then BOSS_DAMAGE else 0))
      && (forall a :: a in t.arrows ==> a !in f.bossHits)
      && (forall a :: a in Motion(s, f).arrows && a !in f.bossHits ==> a in t.arrows)
  {
    MotionKeepsInv(s, f);
  }

  /** The rest of the tick after groupcollide leaves the boss alone, unless
      the lose path removes it; the level check cannot create one when the
      count is below the threshold. */
  lemma BossAfterBallCheck(t: State, f: Frame)
    requires Inv(t) && (t.boss.Some? || t.destroyed < t.needed)
    ensures var (u, lost) := BallsHitPlayer(t, f.playerTouches);
      && (lost ==> u.boss.None?)
      && (!lost ==> LevelCheck(SoybeansHitPlayer(u, f.playerTouches), f.now).boss == t.boss)
  {
  }

  /** Over a whole tick: the boss's health after it, or the win. */
  lemma TickBoss(s: State, f: Frame)
    requires Inv(s) && s.boss.Some?
    ensures var o := Tick(s, f);
      && (o.won <==> BossStruck(s, f) && s.boss.value.health <= BOSS_DAMAGE)
      && (o.won || o.lost ==> o.state.boss.None?)
      && (!o.won && !o.lost ==>
            o.state.boss.Some? && o.state.boss.value.health == s.boss.value.health - (if BossStruck(s, f) then BOSS_DAMAGE else 0))
  {
    BossPhaseDamage(s, f);
    BeforeBallCheckKeepsInv(s, f);
    var (t, won) := BeforeBallCheck(s, f);
    if won {
      var m := BossPhase(Motion(s, f), f).0;
      assert m.balls == [] && m.destroyed == 0;
      assert Collide(m.balls, m.arrows, f.arrowHits).destroyed == 0;
    }
    BossAfterBallCheck(t, f);
  }

  /** Boss.update: a due volley adds exactly five new balls behind the
      existing ones and records the shot time; otherwise nothing changes. */
  lemma BossVolley(s: State, now: int)
    requires s.boss.Some? && Below(s.balls, s.nextId)
    ensures var t := BossUpdate(s, now);
      if VolleyDue(now, s.boss.value.lastShot) then
        && |t.balls| == |s.balls| + BOSS_VOLLEY
        && t.balls[..|s.balls|] == s.balls
        && (forall k :: |s.balls| <= k < |t.balls| ==> t.balls[k] !in s.balls)
        && Below(t.balls, t.nextId)
        && t.boss.value.lastShot == now && t.boss.value.health == s.boss.value.health
        && t.allSprites == s.allSprites
      else t == s
  {
    if VolleyDue(now, s.boss.value.lastShot) {
      var t := BossUpdate(s, now);
      assert t.balls[..|s.balls|] == s.balls;
    }
  }

  lemma MotionSoybeans(s: State, f: Frame)
    ensures forall b :: b in Motion(s, f).soybeans <==> b in s.soybeans && !Expired(f.now, b.spawnTime)
  {
  }

  lemma BossPhaseSoybeans(m: State, f: Frame)
    ensures var (t, won) := BossPhase(m, f);
      t.soybeans == if won then [] else m.soybeans
  {
  }

  /** Soybean lifetime: one past its 3000 ms is gone after the tick; one
      within it that is not picked up stays, unless the session was reset. */
  lemma SoybeanLifetime(s: State, f: Frame, b: Soybean)
    requires Inv(s) && b in s.soybeans
    ensures Expired(f.now, b.spawnTime) ==> b !in Tick(s, f).state.soybeans
    ensures !Expired(f.now, b.spawnTime) && b.id !in f.playerTouches && !Tick(s, f).won && !Tick(s, f).lost
            ==> b in Tick(s, f).state.soybeans
  {
    var m := Motion(s, f);
    MotionSoybeans(s, f);
    BossPhaseSoybeans(m, f);
    BeforeBallCheckKeepsInv(s, f);
    var (t, won) := BeforeBallCheck(s, f);
    assert t.soybeans == BossPhase(m, f).0.soybeans;
    BallsHitPlayerEffect(t, f.playerTouches);
    var (u, lost) := BallsHitPlayer(t, f.playerTouches);
    if !lost {
      SoybeansHitPlayerEffect(u, f.playerTouches);
      LevelCheckKeeps(SoybeansHitPlayer(u, f.playerTouches), f.now);
      if !Expired(f.now, b.spawnTime) && b.id !in f.playerTouches && !won {
        assert b in u.soybeans;
        assert b in SoybeansHitPlayer(u, f.playerTouches).soybeans;
      }
    }
  }

  /** Soybean spawned at 0: still there at 3000 ms, gone at 3001 ms. */
  lemma SoybeanAtThreeSeconds(s: State, f: Frame, id: Id)
    requires Inv(s) && Soybean(id, 0) in s.soybeans && id !in f.playerTouches
    requires !Tick(s, f).won && !Tick(s, f).lost
    ensures f.now == 3000 ==> Soybean(id, 0) in Tick(s, f).state.soybeans
    ensures f.now == 3001 ==> Soybean(id, 0) !in Tick(s, f).state.soybeans
  {
    SoybeanLifetime(s, f, Soybean(id, 0));
  }

  /** The level check: it fires exactly when enough balls are destroyed and
      no boss exists; a regular advance loads the next threshold and shrinks
      the spawn interval, the advance past the table creates a full-health
      boss and leaves the counters alone; the level never passes 4. */
  lemma LevelAdvance(s: State, now: int)
    requires Inv(s)
    ensures var t := LevelCheck(s, now);
      && (t.level != s.level <==> s.destroyed >= s.needed && s.boss.None?)
      && t.level <= BOSS_LEVEL
      && (t.level != s.level && t.level < BOSS_LEVEL ==>
            t.level == s.level + 1 && t.needed == LEVELS[t.level] && t.destroyed == 0
            && t.interval == NextSpawnInterval(s.interval) && t.image == t.level && t.boss.None?)
      && (t.level != s.level && t.level == BOSS_LEVEL ==>
            s.level == BOSS_LEVEL - 1 && t.boss == Some(Boss(s.nextId, BOSS_HEALTH, now, true))
            && t.destroyed == s.destroyed && t.needed == s.needed && t.interval == s.interval)
  {
    LevelCheckKeepsInv(s, now);
  }

  /** Kill counting: balls_destroyed grows by the number of arrows taken
      (the summed lengths of groupcollide's lists), which is at least the
      number of balls removed; an arrow is taken exactly when some ball
      overlaps it, a ball goes only when it overlaps an arrow, and the bar
      is redrawn only when something was destroyed. */
  lemma ArrowsHitBallsCount(s: State, hits: set<(Id, Id)>)
    requires s.needed > 0
    ensures var t := ArrowsHitBalls(s, hits);
      && t.destroyed - s.destroyed == |s.arrows| - |t.arrows|
      && t.destroyed - s.destroyed >= |s.balls| - |t.balls|
      && (forall a :: a in t.arrows <==> a in s.arrows && forall b :: b in s.balls ==> (b, a) !in hits)
      && (forall b :: b in s.balls && b !in t.balls ==> exists a :: a in s.arrows && (b, a) in hits)
      && (forall b :: b in s.balls && (forall a :: a in s.arrows ==> (b, a) !in hits) ==> b in t.balls)
      && t.progress == (if t.destroyed > s.destroyed then ProgressBar(t.destroyed, s.needed) else s.progress)
  {
    CollideRemoves(s.balls, s.arrows, hits);
  }

  /** The balls groupcollide destroys: in a valid state, ball i leaves both
      the ball group and all_sprites exactly when it is the first ball to
      overlap some arrow; every other ball stays. */
  lemma ArrowsHitBallsKills(s: State, hits: set<(Id, Id)>)
    requires Inv(s)
    ensures var t := ArrowsHitBalls(s, hits);
      forall i :: 0 <= i < |s.balls| ==>
        && (s.balls[i] !in t.balls <==> ClaimsArrow(s.balls, s.arrows, hits, i))
        && (s.balls[i] !in t.balls ==> s.balls[i] !in t.allSprites)
  {
    CollideKillsBalls(s.balls, s.arrows, hits);
  }

  /** Game.spawn_ball, spawn_soybean and the player's shot keep the
      invariant, and each new sprite's id is in no group yet. */
  lemma SpawnKeepsInv(s: State, now: int)
    requires Inv(s)
    ensures Inv(SpawnBall(s)) && Inv(SpawnSoybean(s, now)) && Inv(Shoot(s))
    ensures s.nextId !in s.balls && s.nextId !in s.arrows && s.nextId !in s.allSprites
    ensures forall b :: b in s.soybeans ==> b.id != s.nextId
  {
  }

  /** One event of handle_events touches neither hp, the boss, the level
      nor the count, keeps the invariant, and only appends to the groups. */
  lemma HandleEventKeeps(s: State, e: Event, now: int)
    requires Inv(s)
    ensures var t := HandleEvent(s, e, now);
      && Inv(t)
      && t.hp == s.hp && t.boss == s.boss && t.level == s.level
      && t.destroyed == s.destroyed && t.needed == s.needed
      && s.balls <= t.balls && s.arrows <= t.arrows && s.soybeans <= t.soybeans
  {
    SpawnKeepsInv(s, now);
  }

  /** handle_events between two updates: the same for the whole queue. */
  lemma {:induction false} HandleEventsKeeps(s: State, events: seq<Event>, now: int)
    requires Inv(s)
    ensures var t := HandleEvents(s, events, now);
      && Inv(t)
      && t.hp == s.hp && t.boss == s.boss && t.level == s.level
      && t.destroyed == s.destroyed && t.needed == s.needed
      && s.balls <= t.balls && s.arrows <= t.arrows && s.soybeans <= t.soybeans
  {
    if events != [] {
      var u := HandleEvents(s, events[..|events| - 1], now);
      HandleEventsKeeps(s, events[..|events| - 1], now);
      HandleEventKeeps(u, events[|events| - 1], now);
    }
  }

  /** groupcollide's count is per arrow, not per overlapping pair: one arrow
      over two balls is taken by the first, counts once, and the second ball
      survives its overlap. */
  lemma SharedArrowCountsOnce()
    ensures Collide([1, 2], [3], {(1, 3), (2, 3)}) == Collisions([2], [], 1)
  {
    assert Touching(1, {(1, 3), (2, 3)}) == {3};
    assert Without([3], {3}) == [];
    assert [1, 2][1..] == [2];
    assert Collide([2], [], {(1, 3), (2, 3)}) == Collisions([2], [], 0);
  }
}
