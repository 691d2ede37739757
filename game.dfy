/** The game page: enemy creation, player/enemy collision, the 16 ms tick
    (enemies fall, crash into the player, are shot, new ones spawn), the
    paused-time clock, the repeat-fire and gesture-pause effect, and the
    start / pause / resume / end / reset transitions of a session. */
module Game {
  import opened GestureTypes
  import opened Bullets
  import opened PlayerControl
  import opened DeviceUtils

  // ---------------------------------------------------------------------
  // Enemies

  /** The three random draws `createEnemy` makes, each in [0,1). */
  datatype EnemyDraw = EnemyDraw(scale: real, speed: real, image: real)

  predicate UnitDraw(d: EnemyDraw)
  {
    0.0 <= d.scale < 1.0 && 0.0 <= d.speed < 1.0 && 0.0 <= d.image < 1.0
  }

  /** The least integer not below r. */
  function Ceil(r: real): (c: int)
    ensures c as real >= r && (c - 1) as real < r
  {
    if r == r.Floor as real then r.Floor else r.Floor + 1
  }

  function BaseHealth(kind: EnemyKind): int
  {
    if kind == Boss then 3 else 1
  }

  /** An enemy of size 1 to 3 whose health grows with its size and whose
      speed grows with the difficulty level. */
  function CreateEnemy(id: int, x: real, y: real, kind: EnemyKind, level: int, d: EnemyDraw): (e: Enemy)
    ensures e.id == id && e.x == x && e.y == y && e.kind == kind
    ensures e.scale == 1.0 + 2.0 * d.scale
    ensures e.health as real >= BaseHealth(kind) as real * e.scale > (e.health - 1) as real
    ensures e.maxHealth == e.health
    ensures e.speed == 0.25 + 0.25 * d.speed + 0.5 * level as real
    ensures e.imageType == 1 <==> d.image < 0.5
    ensures e.imageType == 1 || e.imageType == 2
    ensures UnitDraw(d) ==>
              (kind == Normal ==> 1 <= e.health <= 3) && (kind == Boss ==> 3 <= e.health <= 9) &&
              0.25 + 0.5 * level as real <= e.speed < 0.5 + 0.5 * level as real
  {
    var scale := 1.0 + d.scale * 2.0;
    var health := Ceil(BaseHealth(kind) as real * scale);
    var speed := (0.25 + d.speed * 0.25) + level as real * 0.5;
    Enemy(id, x, y, speed, kind, if d.image < 0.5 then 1 else 2, scale, health, health)
  }

  /** Id, x, y and kind of the eight enemies every game starts with. */
  const SeedLayout: seq<(int, real, real, EnemyKind)> := [
    (1, 20.0, 5.0, Normal), (2, 40.0, 8.0, Normal), (3, 60.0, 12.0, Boss), (4, 80.0, 15.0, Normal),
    (5, 15.0, 18.0, Boss), (6, 35.0, 3.0, Normal), (7, 55.0, 10.0, Normal), (8, 75.0, 6.0, Normal)]

  function SeedEnemies(d: seq<EnemyDraw>): (es: seq<Enemy>)
    requires |d| == |SeedLayout|
    ensures |es| == 8
    ensures forall i :: 0 <= i < 8 ==> es[i].id == i + 1 && 3.0 <= es[i].y <= 18.0
    ensures forall i :: 0 <= i < 8 ==> (es[i].kind == Boss <==> i == 2 || i == 4)
    ensures forall i :: 0 <= i < 8 && UnitDraw(d[i]) ==> 0.25 <= es[i].speed < 0.5
  {
    seq(8, i requires 0 <= i < 8 =>
      CreateEnemy(SeedLayout[i].0, SeedLayout[i].1, SeedLayout[i].2, SeedLayout[i].3, 0, d[i]))
  }

  // ---------------------------------------------------------------------
  // Player collision

  const PlayerRadius := 4.0

  /** Closer than the sum of the two radii; an enemy whose radius
      3 * scale makes the sum non-positive touches nothing. */
  predicate Touches(px: real, py: real, e: Enemy)
  {
    var reach := PlayerRadius + 3.0 * e.scale;
    reach > 0.0 && (px - e.x) * (px - e.x) + (py - e.y) * (py - e.y) < reach * reach
  }

  /** The enemies touching the player, in list order. */
  function CheckPlayerEnemyCollision(px: real, py: real, es: seq<Enemy>): (r: seq<Enemy>)
    ensures |r| <= |es|
    ensures forall e :: e in r <==> e in es && Touches(px, py, e)
  {
    if es == [] then []
    else
      var last := es[|es| - 1];
      assert es == es[..|es| - 1] + [last];
      CheckPlayerEnemyCollision(px, py, es[..|es| - 1]) + (if Touches(px, py, last) then [last] else [])
  }

  /** Each touching enemy is reported as often as it occurs in the list,
      every other one not at all. */
  lemma {:induction false} CollisionMultiplicity(px: real, py: real, es: seq<Enemy>)
    ensures forall e :: multiset(CheckPlayerEnemyCollision(px, py, es))[e] ==
                          if Touches(px, py, e) then multiset(es)[e] else 0
  {
    if es != [] {
      var init, last := es[..|es| - 1], es[|es| - 1];
      assert es == init + [last];
      CollisionMultiplicity(px, py, init);
    }
  }

  /** The touching enemies are reported in list order: those of a
      concatenation are the first part's followed by the second part's. */
  lemma {:induction false} CollisionConcat(px: real, py: real, a: seq<Enemy>, b: seq<Enemy>)
    ensures CheckPlayerEnemyCollision(px, py, a + b) ==
              CheckPlayerEnemyCollision(px, py, a) + CheckPlayerEnemyCollision(px, py, b)
    decreases |b|
  {
    if b == [] {
      assert a + b == a;
    } else {
      var init, last := b[..|b| - 1], b[|b| - 1];
      var tail := if Touches(px, py, last) then [last] else [];
      assert (a + b)[..|a + b| - 1] == a + init && (a + b)[|a + b| - 1] == last;
      assert CheckPlayerEnemyCollision(px, py, a + b) == CheckPlayerEnemyCollision(px, py, a + init) + tail;
      CollisionConcat(px, py, a, init);
      assert CheckPlayerEnemyCollision(px, py, b) == CheckPlayerEnemyCollision(px, py, init) + tail;
    }
  }

  // ---------------------------------------------------------------------
  // The tick

  const FieldBottom := 100.0

  function Fall(e: Enemy): Enemy
  {
    e.(y := e.y + e.speed)
  }

  /** Every enemy falls by its speed; those reaching the bottom leave. */
  function MoveEnemies(es: seq<Enemy>): (r: seq<Enemy>)
    ensures |r| <= |es|
    ensures forall i :: 0 <= i < |r| ==> r[i].y < FieldBottom
    ensures forall i :: 0 <= i < |es| && Fall(es[i]).y < FieldBottom ==> Fall(es[i]) in r
  {
    if es == [] then []
    else
      var m := Fall(es[|es| - 1]);
      MoveEnemies(es[..|es| - 1]) + (if m.y < FieldBottom then [m] else [])
  }

  /** Every enemy left after the move is some input enemy after its fall. */
  lemma {:induction false} MovedFromFalls(es: seq<Enemy>)
    ensures forall i :: 0 <= i < |MoveEnemies(es)| ==>
              exists j :: 0 <= j < |es| && MoveEnemies(es)[i] == Fall(es[j])
  {
    if es != [] {
      var init := es[..|es| - 1];
      MovedFromFalls(init);
      var r, m := MoveEnemies(es), Fall(es[|es| - 1]);
      var prev := MoveEnemies(init);
      assert r == prev + (if m.y < FieldBottom then [m] else []);
      forall i | 0 <= i < |r|
        ensures exists j :: 0 <= j < |es| && MoveEnemies(es)[i] == Fall(es[j])
      {
        if i < |prev| {
          assert r[i] == prev[i];
          var j :| 0 <= j < |init| && prev[i] == Fall(init[j]);
          assert es[j] == init[j] && r[i] == Fall(es[j]);
        } else {
          var j := |es| - 1;
          assert r[i] == Fall(es[j]);
        }
      }
    } else {
      assert |MoveEnemies(es)| == 0;
    }
  }

  /** The move keeps list order: moving a concatenation moves each part. */
  lemma {:induction false} MoveConcat(a: seq<Enemy>, b: seq<Enemy>)
    ensures MoveEnemies(a + b) == MoveEnemies(a) + MoveEnemies(b)
    decreases |b|
  {
    if b == [] {
      assert a + b == a;
    } else {
      var init, last := b[..|b| - 1], b[|b| - 1];
      var m := Fall(last);
      var tail := if m.y < FieldBottom then [m] else [];
      assert (a + b)[..|a + b| - 1] == a + init && (a + b)[|a + b| - 1] == last;
      assert MoveEnemies(a + b) == MoveEnemies(a + init) + tail;
      MoveConcat(a, init);
      assert MoveEnemies(b) == MoveEnemies(init) + tail;
    }
  }

  function HasId(cs: seq<Enemy>, id: int): (b: bool)
    ensures b <==> exists i :: 0 <= i < |cs| && cs[i].id == id
  {
    if cs == [] then false else cs[0].id == id || HasId(cs[1..], id)
  }

  /** The enemies whose id is not among `cs`. */
  function WithoutIds(es: seq<Enemy>, cs: seq<Enemy>): (r: seq<Enemy>)
    ensures |r| <= |es|
  {
    if es == [] then []
    else
      var last := es[|es| - 1];
      assert es == es[..|es| - 1] + [last];
      WithoutIds(es[..|es| - 1], cs) + (if HasId(cs, last.id) then [] else [last])
  }

  /** An enemy survives removal exactly when it was there and its id is not
      listed. */
  lemma {:induction false} WithoutIdsMembers(es: seq<Enemy>, cs: seq<Enemy>)
    ensures forall e :: e in WithoutIds(es, cs) <==> e in es && !HasId(cs, e.id)
  {
    if es != [] {
      var init, last := es[..|es| - 1], es[|es| - 1];
      assert es == init + [last];
      WithoutIdsMembers(init, cs);
    }
  }

  /** Each enemy whose id is not listed is kept as often as it occurs, every
      other one is dropped. */
  lemma {:induction false} WithoutIdsMultiplicity(es: seq<Enemy>, cs: seq<Enemy>)
    ensures forall e :: multiset(WithoutIds(es, cs))[e] == if HasId(cs, e.id) then 0 else multiset(es)[e]
  {
    if es != [] {
      var init, last := es[..|es| - 1], es[|es| - 1];
      assert es == init + [last];
      WithoutIdsMultiplicity(init, cs);
    }
  }

  /** Removal by id keeps list order. */
  lemma {:induction false} WithoutIdsConcat(a: seq<Enemy>, b: seq<Enemy>, cs: seq<Enemy>)
    ensures WithoutIds(a + b, cs) == WithoutIds(a, cs) + WithoutIds(b, cs)
    decreases |b|
  {
    if b == [] {
      assert a + b == a;
    } else {
      var init, last := b[..|b| - 1], b[|b| - 1];
      var tail := if HasId(cs, last.id) then [] else [last];
      assert b == init + [last];
      assert a + b == (a + init) + [last];
      WithoutIdsSnoc(a + init, last, cs);
      WithoutIdsSnoc(init, last, cs);
      WithoutIdsConcat(a, init, cs);
      calc {
        WithoutIds(a + b, cs);
        WithoutIds(a + init, cs) + tail;
        (WithoutIds(a, cs) + WithoutIds(init, cs)) + tail;
        WithoutIds(a, cs) + (WithoutIds(init, cs) + tail);
        WithoutIds(a, cs) + WithoutIds(b, cs);
      }
    }
  }

  lemma WithoutIdsSnoc(es: seq<Enemy>, x: Enemy, cs: seq<Enemy>)
    ensures WithoutIds(es + [x], cs) == WithoutIds(es, cs) + if HasId(cs, x.id) then [] else [x]
  {
    assert (es + [x])[..|es|] == es;
  }

  /** Once the crashed enemies are taken out by id, none of the rest touches
      the player. */
  lemma SurvivorsClearOfPlayer(px: real, py: real, es: seq<Enemy>)
    ensures var crashed := CheckPlayerEnemyCollision(px, py, es);
            forall e :: e in WithoutIds(es, crashed) ==> !Touches(px, py, e)
  {
    var crashed := CheckPlayerEnemyCollision(px, py, es);
    WithoutIdsMembers(es, crashed);
    forall e | e in crashed
      ensures HasId(crashed, e.id)
    {
      var i :| 0 <= i < |crashed| && crashed[i] == e;
    }
  }

  /** An enemy without an image kind (0) is given kind 1. */
  function WithDefaultImage(es: seq<Enemy>): (r: seq<Enemy>)
    ensures |r| == |es|
    ensures forall i :: 0 <= i < |es| ==>
              r[i].imageType != 0 && r[i].(imageType := es[i].imageType) == es[i]
    ensures (forall i :: 0 <= i < |es| ==> es[i].imageType != 0) ==> r == es
  {
    seq(|es|, i requires 0 <= i < |es| =>
      if es[i].imageType == 0 then es[i].(imageType := 1) else es[i])
  }

  /** The four random draws of a tick. */
  datatype TickDraws = TickDraws(spawn: real, boss: real, x: real, enemy: EnemyDraw)

  function SpawnRate(level: int): real
  {
    0.02 + 0.03 * level as real
  }

  const BossChance := 0.1
  const SpawnY := -5.0

  function Spawned(now: int, level: int, d: TickDraws): (e: Enemy)
    ensures e.id == now && e.x == d.x * 90.0 && e.y == SpawnY
    ensures e.kind == Boss <==> d.boss < BossChance
  {
    CreateEnemy(now, d.x * 90.0, SpawnY, if d.boss < BossChance then Boss else Normal, level, d.enemy)
  }

  /** Game clock: wall time since the start minus the time spent paused, never negative. */
  function Elapsed(now: int, start: int, paused: int): (t: int)
    ensures t >= 0
    ensures now - start - paused >= 0 ==> t == now - start - paused
    ensures now - start - paused < 0 ==> t == 0
  {
    if now - start - paused >= 0 then now - start - paused else 0
  }

  /** The page's game state: the clock, the counters and the two play flags. */
  datatype GameState = GameState(time: int, score: int, lives: int, isPaused: bool, isPlaying: bool, combo: int)

  const InitialLives := 3
  const InitialState := GameState(0, 0, InitialLives, false, false, 0)

  predicate InRange(s: GameState)
  {
    0 <= s.lives <= InitialLives && s.score >= 0 && s.combo >= 0 && s.time >= 0
  }

  datatype TickResult = TickResult(
    state: GameState,
    enemies: seq<Enemy>,
    bullets: seq<Bullet>,
    crashed: seq<Enemy>,
    killed: seq<Enemy>,
    scheduleEnd: bool)

  /** The enemies that hit the player after falling. */
  function Crashed(enemies: seq<Enemy>, player: Position): (r: seq<Enemy>)
    ensures forall e :: e in r ==> Touches(player.x, player.y, e)
    ensures forall i :: 0 <= i < |enemies| ==>
              (Fall(enemies[i]).y < FieldBottom && Touches(player.x, player.y, Fall(enemies[i])) ==>
                 Fall(enemies[i]) in r)
  {
    CheckPlayerEnemyCollision(player.x, player.y, MoveEnemies(enemies))
  }

  /** A single enemy crashes exactly when it is still in the field after its
      fall and touches the player. */
  lemma CrashedOne(e: Enemy, player: Position)
    ensures Crashed([e], player) ==
              if Fall(e).y < FieldBottom && Touches(player.x, player.y, Fall(e)) then [Fall(e)] else []
  {
    assert [e][..0] == [];
    var m := MoveEnemies([e]);
    assert m == if Fall(e).y < FieldBottom then [Fall(e)] else [];
    if m != [] {
      assert m[..0] == [];
    }
  }

  /** The crashes of a list are those of its parts, in order; with
      `CrashedOne` this makes the lives a tick costs the number of enemies
      that crash, each counted once. */
  lemma CrashedConcat(a: seq<Enemy>, b: seq<Enemy>, player: Position)
    ensures Crashed(a + b, player) == Crashed(a, player) + Crashed(b, player)
  {
    MoveConcat(a, b);
    CollisionConcat(player.x, player.y, MoveEnemies(a), MoveEnemies(b));
  }

  /** The enemies still in play after falling, minus those that hit the player. */
  function Survivors(enemies: seq<Enemy>, player: Position): seq<Enemy>
  {
    var moved := MoveEnemies(enemies);
    WithoutIds(moved, CheckPlayerEnemyCollision(player.x, player.y, moved))
  }

  /** The bookkeeping of a tick once the crashes and the shots are known:
      every crash costs a life and the combo, every kill is worth 10 points
      and one combo step, an end is scheduled when the lives run out, and a
      new enemy may spawn at the top. */
  function Settle(s: GameState, crashed: seq<Enemy>, shots: CollisionResult, gameEnded: bool,
                  start: int, paused: int, level: int, now: int, d: TickDraws): (r: TickResult)
    ensures r.crashed == crashed && r.killed == shots.hitEnemies && r.bullets == shots.remainingBullets
    ensures r.state.isPaused == s.isPaused && r.state.isPlaying == s.isPlaying
    ensures r.state.time == Elapsed(now, start, paused)
    ensures r.state.score == s.score + 10 * |r.killed|
    ensures r.state.combo == (if |r.crashed| > 0 then 0 else s.combo) + |r.killed|
    ensures |r.crashed| == 0 ==> r.state.lives == s.lives
    ensures 0 <= s.lives ==> 0 <= r.state.lives <= s.lives
    ensures |r.crashed| > 0 && s.lives - |r.crashed| > 0 ==> r.state.lives == s.lives - |r.crashed|
    ensures r.scheduleEnd <==> |r.crashed| > 0 && s.lives - |r.crashed| <= 0 && !gameEnded
    ensures r.scheduleEnd ==> r.state.lives == 0
    ensures InRange(s) ==> InRange(r.state)
    ensures |r.crashed| > 0 && s.lives - |r.crashed| <= 0 ==> r.state.lives == 0
    ensures var kept := WithDefaultImage(shots.remainingEnemies);
            |r.enemies| >= |kept| && r.enemies[..|kept|] == kept &&
            |r.enemies| == |kept| + (if d.spawn < SpawnRate(level) then 1 else 0)
    ensures d.spawn < SpawnRate(level) ==> |r.enemies| >= 1 && r.enemies[|r.enemies| - 1] == Spawned(now, level, d)
  {
    var n := |crashed|;
    var lives := if n > 0 then (if s.lives - n > 0 then s.lives - n else 0) else s.lives;
    var combo := if n > 0 then 0 else s.combo;
    var kept := WithDefaultImage(shots.remainingEnemies);
    var newEnemies := if d.spawn < SpawnRate(level) then kept + [Spawned(now, level, d)] else kept;
    TickResult(
      s.(time := Elapsed(now, start, paused), score := s.score + |shots.hitEnemies| * 10,
         lives := lives, combo := combo + |shots.hitEnemies|),
      newEnemies, shots.remainingBullets, crashed, shots.hitEnemies,
      n > 0 && s.lives - n <= 0 && !gameEnded)
  }

  /** One tick of a running game: enemies fall, crash into the player, are
      shot, and the counters are settled. */
  function TickFn(s: GameState, enemies: seq<Enemy>, bullets: seq<Bullet>, player: Position,
                  gameEnded: bool, start: int, paused: int, level: int, now: int, d: TickDraws): TickResult
  {
    Settle(s, Crashed(enemies, player), UpdateResult(bullets, Survivors(enemies, player)),
           gameEnded, start, paused, level, now, d)
  }

  /** Above the bottom of the field and clear of the player. */
  predicate Safe(px: real, py: real, e: Enemy)
  {
    e.y < FieldBottom && !Touches(px, py, e)
  }

  predicate AllSafe(px: real, py: real, es: seq<Enemy>)
  {
    forall j :: 0 <= j < |es| ==> Safe(px, py, es[j])
  }

  /** A bullet only removes or damages an enemy, which does not move it. */
  lemma SafeAfterStep(px: real, py: real, acc: CollisionResult, b: Bullet)
    requires AllSafe(px, py, acc.remainingEnemies)
    ensures AllSafe(px, py, Step(acc, b).remainingEnemies)
  {
    var es := acc.remainingEnemies;
    if b.y >= 0.0 {
      var k := FirstHit(b, es, 0);
      if k < |es| {
        var dmg := Damage(es[k]);
        assert Safe(px, py, dmg) by {
          assert dmg.x == es[k].x && dmg.y == es[k].y && dmg.scale == es[k].scale;
        }
        if dmg.health <= 0 {
          var rest := es[..k] + es[k + 1..];
          forall j | 0 <= j < |rest|
            ensures Safe(px, py, rest[j])
          {
            if j < k {
              assert rest[j] == es[j];
            } else {
              assert rest[j] == es[j + 1];
            }
          }
        }
      }
    }
  }

  lemma {:induction false} SafeAfterResolve(px: real, py: real, bs: seq<Bullet>, es: seq<Enemy>)
    requires AllSafe(px, py, es)
    ensures AllSafe(px, py, Resolve(bs, es).remainingEnemies)
  {
    if bs != [] {
      SafeAfterResolve(px, py, bs[..|bs| - 1], es);
      SafeAfterStep(px, py, Resolve(bs[..|bs| - 1], es), bs[|bs| - 1]);
    }
  }

  /** The enemies that survive the fall and the crash are all safe. */
  lemma SurvivorsSafe(px: real, py: real, enemies: seq<Enemy>)
    ensures AllSafe(px, py, Survivors(enemies, Position(px, py)))
  {
    var moved := MoveEnemies(enemies);
    var survivors := Survivors(enemies, Position(px, py));
    SurvivorsClearOfPlayer(px, py, moved);
    WithoutIdsMembers(moved, CheckPlayerEnemyCollision(px, py, moved));
    forall j | 0 <= j < |survivors|
      ensures Safe(px, py, survivors[j])
    {
      assert survivors[j] in survivors;
      var k :| 0 <= k < |moved| && moved[k] == survivors[j];
    }
  }

  /** Defaulting the image kind moves nothing. */
  lemma DefaultImageInPlace(px: real, py: real, es: seq<Enemy>)
    ensures var kept := WithDefaultImage(es);
            forall j :: 0 <= j < |kept| ==> kept[j].x == es[j].x && kept[j].y == es[j].y && kept[j].scale == es[j].scale
    ensures AllSafe(px, py, es) ==> AllSafe(px, py, WithDefaultImage(es))
  {
    var kept := WithDefaultImage(es);
    forall j | 0 <= j < |kept|
      ensures kept[j].x == es[j].x && kept[j].y == es[j].y && kept[j].scale == es[j].scale
    {
      assert kept[j].(imageType := es[j].imageType) == es[j];
    }
  }

  /** After a tick every enemy is above the bottom of the field, and all
      but the one just spawned are clear of the player. */
  lemma TickEnemiesSafe(s: GameState, enemies: seq<Enemy>, bullets: seq<Bullet>, player: Position,
                        gameEnded: bool, start: int, paused: int, level: int, now: int, d: TickDraws)
    ensures var r := TickFn(s, enemies, bullets, player, gameEnded, start, paused, level, now, d);
            var spawned := if d.spawn < SpawnRate(level) then 1 else 0;
            |r.enemies| >= spawned &&
            (forall i :: 0 <= i < |r.enemies| ==> r.enemies[i].y < FieldBottom) &&
            (forall j :: 0 <= j < |r.enemies| - spawned ==> !Touches(player.x, player.y, r.enemies[j]))
  {
    var survivors := Survivors(enemies, player);
    SurvivorsSafe(player.x, player.y, enemies);
    SafeAfterResolve(player.x, player.y, AdvanceAll(bullets), survivors);
    DefaultImageInPlace(player.x, player.y, UpdateResult(bullets, survivors).remainingEnemies);
  }

  lemma CollidesByPosition(b: Bullet, e1: Enemy, e2: Enemy)
    requires e1.x == e2.x && e1.y == e2.y
    ensures Collides(b, e1) == Collides(b, e2)
  {
  }

  /** After a tick no surviving bullet overlaps an enemy other than the one
      just spawned, every surviving bullet is inside the field, and only the
      spawned enemy is gained: the others plus the kills are at most the
      enemies the tick started with. */
  lemma TickSeparates(s: GameState, enemies: seq<Enemy>, bullets: seq<Bullet>, player: Position,
                      gameEnded: bool, start: int, paused: int, level: int, now: int, d: TickDraws)
    ensures var r := TickFn(s, enemies, bullets, player, gameEnded, start, paused, level, now, d);
            var spawned := if d.spawn < SpawnRate(level) then 1 else 0;
            |r.enemies| >= spawned &&
            |r.enemies| - spawned + |r.killed| <= |enemies| &&
            (forall i :: 0 <= i < |r.bullets| ==> r.bullets[i].y >= 0.0) &&
            (forall i, j :: 0 <= i < |r.bullets| && 0 <= j < |r.enemies| - spawned ==>
               !Collides(r.bullets[i], r.enemies[j]))
  {
    var survivors := Survivors(enemies, player);
    ResolveSeparates(AdvanceAll(bullets), survivors);
    ResolveAccounting(AdvanceAll(bullets), survivors);
    SettleSeparates(s, Crashed(enemies, player), UpdateResult(bullets, survivors),
                    gameEnded, start, paused, level, now, d);
  }

  /** Settling keeps the shots' separation: the enemies it keeps are the
      remaining ones in place, followed by the spawned one if any. */
  lemma SettleSeparates(s: GameState, crashed: seq<Enemy>, shots: CollisionResult, gameEnded: bool,
                        start: int, paused: int, level: int, now: int, d: TickDraws)
    requires Separated(shots)
    ensures var r := Settle(s, crashed, shots, gameEnded, start, paused, level, now, d);
            var spawned := if d.spawn < SpawnRate(level) then 1 else 0;
            |r.enemies| == |shots.remainingEnemies| + spawned &&
            (forall i :: 0 <= i < |r.bullets| ==> r.bullets[i].y >= 0.0) &&
            (forall i, j :: 0 <= i < |r.bullets| && 0 <= j < |r.enemies| - spawned ==>
               !Collides(r.bullets[i], r.enemies[j]))
  {
    var kept := WithDefaultImage(shots.remainingEnemies);
    DefaultImageInPlace(0.0, 0.0, shots.remainingEnemies);
    var r := Settle(s, crashed, shots, gameEnded, start, paused, level, now, d);
    assert r.enemies == if d.spawn < SpawnRate(level) then kept + [Spawned(now, level, d)] else kept;
    forall i, j | 0 <= i < |r.bullets| && 0 <= j < |kept|
      ensures !Collides(r.bullets[i], r.enemies[j])
    {
      assert r.enemies[j] == kept[j];
      CollidesByPosition(r.bullets[i], kept[j], shots.remainingEnemies[j]);
    }
  }

  // ---------------------------------------------------------------------
  // The session

  datatype Submission = Submission(deviceId: string, score: int)

  const PauseGestureGapMs := 1000
  const GunOffset := 5.0

  class GameSession {
    const control: GameController
    const device: DeviceStore
    var gameState: GameState
    var difficulty: int
    var enemies: seq<Enemy>
    var gameStartTime: int
    var pausedTime: int
    var pauseStartTime: int
    var gameEnded: bool
    var isShooting: bool
    var shootOrigin: Position
    var lastPauseTime: int
    var pausePending: bool
    var showPauseModal: bool
    var showGameOverModal: bool
    var submissions: seq<Submission>
    ghost var sessionStart: nat

    /** The game state stays in range, every enemy is above the bottom of
        the field, and a score is submitted at most once per session:
        exactly when the session's end flag is set. */
    ghost predicate SessionValid()
      reads this
    {
      InRange(gameState) && difficulty >= 0 &&
      (forall i :: 0 <= i < |enemies| ==> enemies[i].y < FieldBottom) &&
      sessionStart <= |submissions| <= sessionStart + 1 &&
      (gameEnded <==> |submissions| == sessionStart + 1)
    }

    /** The session's own invariant and the controller's. */
    ghost predicate Valid()
      reads this, control, control.bullets
    {
      SessionValid() && control.Valid()
    }

    predicate Running()
      reads this
    {
      gameState.isPlaying && !gameState.isPaused
    }

    constructor (now: int, storage: map<string, string>, seeds: seq<EnemyDraw>)
      requires |seeds| == |SeedLayout|
      ensures fresh(control) && fresh(device) && device.storage == storage
      ensures gameState == InitialState && difficulty == 0
      ensures enemies == SeedEnemies(seeds)
      ensures !gameEnded && !isShooting && !pausePending && submissions == []
      ensures control.playerPosition == InitialPosition && control.bullets.bullets == []
      ensures Valid()
    {
      control := new GameController(now);
      device := new DeviceStore(storage);
      gameState := InitialState;
      difficulty := 0;
      enemies := SeedEnemies(seeds);
      gameStartTime, pausedTime, pauseStartTime := 0, 0, 0;
      gameEnded := false;
      isShooting := false;
      shootOrigin := InitialPosition;
      lastPauseTime := 0;
      pausePending := false;
      showPauseModal, showGameOverModal := false, false;
      submissions := [];
      sessionStart := 0;
    }

    /** When the loop (re)starts, the first start records the wall clock. */
    method LoopStarted(now: int)
      requires Valid()
      modifies this`gameStartTime
      ensures Valid()
      ensures gameStartTime == if old(Running()) && old(gameStartTime) == 0 then now else old(gameStartTime)
    {
      if Running() && gameStartTime == 0 {
        gameStartTime := now;
      }
    }

    /** One 16 ms tick; returns whether it scheduled the end of the game. */
    method Tick(now: int, d: TickDraws) returns (scheduleEnd: bool)
      requires Valid()
      modifies this`gameState, this`enemies, control.bullets
      ensures Valid()
      ensures !old(Running()) ==>
                !scheduleEnd && gameState == old(gameState) && enemies == old(enemies) &&
                control.bullets.bullets == old(control.bullets.bullets)
      ensures old(Running()) ==>
                var r := TickFn(old(gameState), old(enemies), old(control.bullets.bullets), control.playerPosition,
                                gameEnded, gameStartTime, pausedTime, difficulty, now, d);
                gameState == r.state && enemies == r.enemies &&
                control.bullets.bullets == r.bullets && scheduleEnd == r.scheduleEnd
      ensures control.bullets.nextId == old(control.bullets.nextId)
    {
      scheduleEnd := false;
      if !Running() {
        return;
      }
      TickEnemiesSafe(gameState, enemies, control.bullets.bullets, control.playerPosition,
                      gameEnded, gameStartTime, pausedTime, difficulty, now, d);
      var crashed := Crashed(enemies, control.playerPosition);
      var shots := control.bullets.UpdateBullets(Survivors(enemies, control.playerPosition));
      var r := Settle(gameState, crashed, shots, gameEnded, gameStartTime, pausedTime, difficulty, now, d);
      gameState, enemies, scheduleEnd := r.state, r.enemies, r.scheduleEnd;
    }

    /** Every 20 s of running play the difficulty goes up by one. */
    method DifficultyTimerFired()
      requires Valid()
      modifies this`difficulty
      ensures Valid()
      ensures difficulty == if old(Running()) then old(difficulty) + 1 else old(difficulty)
    {
      if Running() {
        difficulty := difficulty + 1;
      }
    }

    /** Reacts to the controller's actions: a rising shoot flag fires one
        bullet 5 points above the player and starts repeat-fire from that
        spot, a falling one stops it; a pause flag more than 1000 ms after the
        last one arms the delayed pause. Outside running play repeat-fire
        stops and nothing else happens, so a pause gesture cannot resume. */
    method ShootEffect(now: int)
      requires Valid()
      modifies this`isShooting, this`shootOrigin, this`lastPauseTime, this`pausePending, control.bullets
      ensures Valid()
      ensures !old(Running()) ==>
                !isShooting && control.bullets.bullets == old(control.bullets.bullets) &&
                pausePending == old(pausePending) && lastPauseTime == old(lastPauseTime)
      ensures old(Running()) ==>
                var a := control.gameActions;
                var p := control.playerPosition;
                (a.shoot && !old(isShooting) ==>
                   isShooting && shootOrigin == p &&
                   control.bullets.bullets ==
                     old(control.bullets.bullets) + [Bullet(old(control.bullets.nextId), p.x, p.y - GunOffset, BulletSpeed)]) &&
                (!(a.shoot && !old(isShooting)) ==>
                   isShooting == a.shoot && shootOrigin == old(shootOrigin) &&
                   control.bullets.bullets == old(control.bullets.bullets)) &&
                (a.pause && now - old(lastPauseTime) > PauseGestureGapMs ==> lastPauseTime == now && pausePending) &&
                (!(a.pause && now - old(lastPauseTime) > PauseGestureGapMs) ==>
                   lastPauseTime == old(lastPauseTime) && pausePending == old(pausePending))
    {
      if !Running() {
        isShooting := false;
        return;
      }
      var a := control.gameActions;
      if a.shoot && !isShooting {
        isShooting := true;
        control.bullets.CreateBullet(control.playerPosition.x, control.playerPosition.y - GunOffset);
        shootOrigin := control.playerPosition;
      } else if !a.shoot && isShooting {
        isShooting := false;
      }
      if a.pause {
        if now - lastPauseTime > PauseGestureGapMs {
          lastPauseTime := now;
          pausePending := true;
        }
      }
    }

    /** The 500 ms repeat-fire timer: one bullet from where firing started. */
    method RepeatFireTimer()
      requires Valid()
      modifies control.bullets
      ensures Valid()
      ensures control.bullets.bullets ==
                old(control.bullets.bullets) +
                (if isShooting then [Bullet(old(control.bullets.nextId), shootOrigin.x, shootOrigin.y - GunOffset, BulletSpeed)]
                 else [])
    {
      if isShooting {
        control.bullets.CreateBullet(shootOrigin.x, shootOrigin.y - GunOffset);
      }
    }

    /** The delayed pause armed by the gesture fires 200 ms later. */
    method PauseTimerFired(now: int)
      requires Valid()
      modifies this`gameState, this`showPauseModal, this`pauseStartTime, this`isShooting, this`pausePending
      ensures Valid()
      ensures old(pausePending) ==>
                gameState == old(gameState).(isPaused := true) && showPauseModal &&
                pauseStartTime == now && !isShooting && !pausePending
      ensures !old(pausePending) ==> unchanged(this)
    {
      if pausePending {
        PauseGame(now);
      }
    }

    method StartGame(now: int)
      requires Valid()
      modifies this`gameState, this`gameStartTime, this`pausedTime, this`pauseStartTime
      ensures Valid()
      ensures gameState == old(gameState).(isPlaying := true, isPaused := false, time := 0)
      ensures gameStartTime == now && pausedTime == 0 && pauseStartTime == 0
    {
      gameStartTime, pausedTime, pauseStartTime := now, 0, 0;
      gameState := gameState.(isPlaying := true, isPaused := false, time := 0);
    }

    /** Pausing cancels the armed pause and repeat-fire and starts timing the pause. */
    method PauseGame(now: int)
      requires Valid()
      modifies this`gameState, this`showPauseModal, this`pauseStartTime, this`isShooting, this`pausePending
      ensures Valid()
      ensures gameState == old(gameState).(isPaused := true) && showPauseModal && pauseStartTime == now
      ensures !pausePending && !isShooting
    {
      pausePending, isShooting := false, false;
      pauseStartTime := now;
      gameState := gameState.(isPaused := true);
      showPauseModal := true;
    }

    /** Resuming adds the pause's length to the paused total, so the game
        clock reads on from where the pause began. */
    method ResumeGame(now: int)
      requires Valid()
      modifies this`gameState, this`showPauseModal, this`pauseStartTime, this`pausedTime
      ensures Valid()
      ensures gameState == old(gameState).(isPaused := false) && !showPauseModal
      ensures pauseStartTime == if old(pauseStartTime) > 0 then 0 else old(pauseStartTime)
      ensures old(pauseStartTime) > 0 ==>
                pausedTime == old(pausedTime) + (now - old(pauseStartTime)) &&
                Elapsed(now, gameStartTime, pausedTime) == Elapsed(old(pauseStartTime), gameStartTime, old(pausedTime))
      ensures old(pauseStartTime) <= 0 ==> pausedTime == old(pausedTime)
    {
      if pauseStartTime > 0 {
        var pauseDuration := now - pauseStartTime;
        pausedTime := pausedTime + pauseDuration;
        pauseStartTime := 0;
      }
      gameState := gameState.(isPaused := false);
      showPauseModal := false;
    }

    /** Stops play and repeat-fire, cancels the armed pause, submits the
        score the first time in this session under a valid device id, and
        shows the game-over dialog. */
    method FinishSession(idDraws: seq<real>)
      requires SessionValid()
      requires |idDraws| == IdLength && UnitDraws(idDraws)
      modifies this`gameState, this`isShooting, this`pausePending, this`gameEnded, this`submissions
      modifies this`showPauseModal, this`showGameOverModal, device
      ensures SessionValid()
      ensures gameState == old(gameState).(isPlaying := false, isPaused := false)
      ensures !isShooting && !pausePending && !showPauseModal && showGameOverModal && gameEnded
      ensures old(gameEnded) ==> submissions == old(submissions)
      ensures !old(gameEnded) ==>
                |submissions| == |old(submissions)| + 1 &&
                submissions[..|old(submissions)|] == old(submissions) &&
                submissions[|old(submissions)|].score == old(gameState.score) &&
                ValidateDeviceId(submissions[|old(submissions)|].deviceId)
    {
      gameState := gameState.(isPlaying := false, isPaused := false);
      pausePending, isShooting := false, false;
      if !gameEnded {
        gameEnded := true;
        var deviceId := device.GetOrCreateDeviceId(idDraws);
        submissions := submissions + [Submission(deviceId, gameState.score)];
      }
      showPauseModal, showGameOverModal := false, true;
    }

    /** Ends the game unless the game-over dialog is already up, then stops
        gesture control: the camera, the actions and every bullet. */
    method EndGame(now: int, idDraws: seq<real>)
      requires Valid()
      requires |idDraws| == IdLength && UnitDraws(idDraws)
      modifies this`gameState, this`isShooting, this`pausePending, this`gameEnded, this`submissions
      modifies this`showPauseModal, this`showGameOverModal, device
      modifies control`gameActions, control.recognizer`gestureState, control.recognizer`gameControl, control.bullets
      ensures Valid()
      ensures old(showGameOverModal) ==>
                unchanged(this) && unchanged(control) && unchanged(control.recognizer) &&
                unchanged(control.bullets) && unchanged(device)
      ensures !old(showGameOverModal) ==>
                gameState == old(gameState).(isPlaying := false, isPaused := false) &&
                !isShooting && !pausePending && !showPauseModal && showGameOverModal && gameEnded &&
                control.gameActions == NoActions && control.bullets.bullets == [] &&
                control.recognizer.gestureState == GestureState(NoGesture, 0.0, now)
      ensures !old(showGameOverModal) && old(gameEnded) ==> submissions == old(submissions)
      ensures !old(showGameOverModal) && !old(gameEnded) ==>
                |submissions| == |old(submissions)| + 1 &&
                submissions[..|old(submissions)|] == old(submissions) &&
                submissions[|old(submissions)|].score == old(gameState.score) &&
                ValidateDeviceId(submissions[|old(submissions)|].deviceId)
      ensures control.bullets.nextId == old(control.bullets.nextId)
    {
      if showGameOverModal {
        return;
      }
      FinishSession(idDraws);
      control.StopGestureControl(now);
    }

    /** The state of a new session before it starts: initial game state,
        the eight seed enemies, all clocks and flags cleared. */
    ghost predicate NewSession(seeds: seq<EnemyDraw>)
      requires |seeds| == |SeedLayout|
      reads this
    {
      gameState == InitialState && difficulty == 0 && enemies == SeedEnemies(seeds) &&
      !gameEnded && !isShooting && !pausePending && lastPauseTime == 0 &&
      gameStartTime == 0 && pausedTime == 0 && pauseStartTime == 0 &&
      sessionStart == |submissions|
    }

    method ResetSession(seeds: seq<EnemyDraw>)
      requires |seeds| == |SeedLayout|
      modifies this`gameState, this`difficulty, this`enemies, this`gameEnded, this`sessionStart
      modifies this`gameStartTime, this`pausedTime, this`pauseStartTime
      modifies this`isShooting, this`pausePending, this`lastPauseTime
      ensures SessionValid() && NewSession(seeds)
    {
      pausePending, isShooting, lastPauseTime := false, false, 0;
      gameStartTime, pausedTime, pauseStartTime := 0, 0, 0;
      gameEnded := false;
      sessionStart := |submissions|;
      difficulty := 0;
      enemies := SeedEnemies(seeds);
      gameState := InitialState;
    }

    /** Back to the not-yet-started state of a new session. */
    method ResetGame(seeds: seq<EnemyDraw>)
      requires Valid() && |seeds| == |SeedLayout|
      modifies this`gameState, this`difficulty, this`enemies, this`gameEnded, this`sessionStart
      modifies this`gameStartTime, this`pausedTime, this`pauseStartTime
      modifies this`isShooting, this`pausePending, this`lastPauseTime
      modifies control`playerPosition, control`lastPosition, control.bullets
      ensures Valid() && NewSession(seeds)
      ensures control.bullets.bullets == [] && control.playerPosition == InitialPosition
    {
      ResetSession(seeds);
      control.bullets.ClearBullets();
      control.ResetPlayerPosition();
    }

    /** Closes the game-over dialog and resets. */
    method HandleGameOverRestart(seeds: seq<EnemyDraw>)
      requires Valid() && |seeds| == |SeedLayout|
      modifies this`gameState, this`difficulty, this`enemies, this`gameEnded, this`sessionStart
      modifies this`gameStartTime, this`pausedTime, this`pauseStartTime
      modifies this`isShooting, this`pausePending, this`lastPauseTime, this`showGameOverModal
      modifies control`playerPosition, control`lastPosition, control.bullets
      ensures Valid() && NewSession(seeds) && !showGameOverModal
      ensures control.bullets.bullets == [] && control.playerPosition == InitialPosition
    {
      showGameOverModal := false;
      ResetGame(seeds);
    }

    /** Resets and immediately starts a new game. */
    method RestartGame(now: int, seeds: seq<EnemyDraw>)
      requires Valid() && |seeds| == |SeedLayout|
      modifies this`gameState, this`difficulty, this`enemies, this`gameEnded, this`sessionStart
      modifies this`gameStartTime, this`pausedTime, this`pauseStartTime
      modifies this`isShooting, this`pausePending, this`lastPauseTime, this`showPauseModal
      modifies control`playerPosition, control`lastPosition, control.bullets
      ensures Valid()
      ensures gameState == InitialState.(isPlaying := true) && !showPauseModal && !gameEnded
      ensures gameStartTime == now && pausedTime == 0 && pauseStartTime == 0
      ensures enemies == SeedEnemies(seeds) && difficulty == 0
      ensures !isShooting && !pausePending && lastPauseTime == 0 && sessionStart == |submissions|
      ensures control.bullets.bullets == [] && control.playerPosition == InitialPosition
    {
      showPauseModal := false;
      ResetGame(seeds);
      gameStartTime, pausedTime, pauseStartTime := now, 0, 0;
      gameState := gameState.(isPlaying := true, time := 0);
    }
  }
}
