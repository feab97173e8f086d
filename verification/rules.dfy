/** The fixed rules of a SoyBoyz Adventure session: screen size, timings,
    the level table, and the small integer rules for moving the player,
    changing the player's hp, ageing soybeans and timing the boss's volleys. */
module Rules {

  const SCREEN_WIDTH: int := 1000
  const SCREEN_HEIGHT: int := 800
  const INITIAL_BALL_SPAWN_INTERVAL: int := 700
  const MIN_BALL_SPAWN_INTERVAL: int := 140
  const SOYBEAN_LIFETIME: int := 3000

  /** Balls to destroy on each regular level; index 4 is the boss level. */
  const LEVELS: seq<int> := [20, 35, 60, 100]
  const BOSS_LEVEL: int := 4

  const INITIAL_HP: int := 7
  const MAX_HP: int := 10
  const PLAYER_SPEED: int := 5
  const PLAYER_SIZE: int := 100
  /** Top-left corner of the player's 100x100 rectangle when centred on the screen. */
  const PLAYER_START_X: int := SCREEN_WIDTH / 2 - PLAYER_SIZE / 2
  const PLAYER_START_Y: int := SCREEN_HEIGHT / 2 - PLAYER_SIZE / 2

  const BOSS_HEALTH: int := 100
  const BOSS_DAMAGE: int := 5
  const BOSS_COOLDOWN: int := 2000
  const BOSS_VOLLEY: nat := 5

  /** An axis-aligned sprite rectangle in whole pixels. */
  datatype Rect = Rect(left: int, top: int, width: nat, height: nat)
  {
    function Right(): int { left + width }
    function Bottom(): int { top + height }
  }

  /** The test with which an arrow or a ball removes itself after moving:
      its rectangle lies wholly beyond one edge of the screen. */
  predicate OffScreen(r: Rect)
  {
    r.Bottom() < 0 || r.top > SCREEN_HEIGHT || r.left > SCREEN_WIDTH || r.Right() < 0
  }

  lemma OffScreenMeansNoPixelOnScreen(r: Rect, px: int, py: int)
    requires OffScreen(r)
    requires r.left <= px < r.Right() && r.top <= py < r.Bottom()
    ensures !(0 <= px < SCREEN_WIDTH && 0 <= py < SCREEN_HEIGHT)
  {
  }

  /** The held movement keys; each direction merges its arrow key and its WASD key. */
  datatype Keys = Keys(left: bool, right: bool, up: bool, down: bool)

  /** One axis of pygame's clamp_ip of the 100-pixel player into [0, limit). */
  function ClampAxis(p: int, limit: int): (r: int)
    requires PLAYER_SIZE <= limit
    ensures 0 <= r <= limit - PLAYER_SIZE
    ensures 0 <= p <= limit - PLAYER_SIZE ==> r == p
    ensures p < 0 ==> r == 0
    ensures p > limit - PLAYER_SIZE ==> r == limit - PLAYER_SIZE
  {
    if p < 0 then 0
    else if p + PLAYER_SIZE > limit then limit - PLAYER_SIZE
    else p
  }

  /** Movement on one axis from the two opposing keys: both held cancel out. */
  function AxisStep(back: bool, forth: bool): (d: int)
    ensures -PLAYER_SPEED <= d <= PLAYER_SPEED
    ensures d == 0 <==> back == forth
    ensures back && !forth ==> d == -PLAYER_SPEED
    ensures forth && !back ==> d == PLAYER_SPEED
  {
    (if back then -PLAYER_SPEED else 0) + (if forth then PLAYER_SPEED else 0)
  }

  /** Player.update: move by 5 per held key, then clamp to the screen. */
  function PlayerStep(x: int, y: int, keys: Keys): (pos: (int, int))
    ensures 0 <= pos.0 <= SCREEN_WIDTH - PLAYER_SIZE
    ensures 0 <= pos.1 <= SCREEN_HEIGHT - PLAYER_SIZE
    ensures OnScreen(x, y) ==> -PLAYER_SPEED <= pos.0 - x <= PLAYER_SPEED && -PLAYER_SPEED <= pos.1 - y <= PLAYER_SPEED
    ensures keys == Keys(false, false, false, false) && OnScreen(x, y) ==> pos == (x, y)
    ensures var dx := AxisStep(keys.left, keys.right);
      && (0 <= x + dx <= SCREEN_WIDTH - PLAYER_SIZE ==> pos.0 == x + dx)
      && (x + dx < 0 ==> pos.0 == 0)
      && (x + dx > SCREEN_WIDTH - PLAYER_SIZE ==> pos.0 == SCREEN_WIDTH - PLAYER_SIZE)
    ensures var dy := AxisStep(keys.up, keys.down);
      && (0 <= y + dy <= SCREEN_HEIGHT - PLAYER_SIZE ==> pos.1 == y + dy)
      && (y + dy < 0 ==> pos.1 == 0)
      && (y + dy > SCREEN_HEIGHT - PLAYER_SIZE ==> pos.1 == SCREEN_HEIGHT - PLAYER_SIZE)
  {
    (ClampAxis(x + AxisStep(keys.left, keys.right), SCREEN_WIDTH),
     ClampAxis(y + AxisStep(keys.up, keys.down), SCREEN_HEIGHT))
  }

  /** The player's rectangle lies inside the screen. */
  predicate OnScreen(x: int, y: int)
  {
    0 <= x <= SCREEN_WIDTH - PLAYER_SIZE && 0 <= y <= SCREEN_HEIGHT - PLAYER_SIZE
  }

  /** Player.increase_hp: one more point, but only below the cap of 10. */
  function Healed(hp: int): (r: int)
    ensures hp <= r <= hp + 1
    ensures hp <= MAX_HP ==> r <= MAX_HP
    ensures r == hp + 1 <==> hp < MAX_HP
  {
    if hp < MAX_HP then hp + 1 else hp
  }

  /** Soybean.update: a soybean vanishes strictly after its 3000 ms lifetime. */
  predicate Expired(now: int, spawnTime: int)
  {
    now - spawnTime > SOYBEAN_LIFETIME
  }

  /** Boss.update: a volley is due once 2000 ms have passed since the last one. */
  predicate VolleyDue(now: int, lastShot: int)
  {
    now - lastShot >= BOSS_COOLDOWN
  }
}
