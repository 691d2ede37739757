/** The bullet system: bullets fly upward a fixed step per frame, leave the
    field above y = 0, and each bullet damages at most one enemy, the first
    (in list order) that it overlaps. An enemy whose health drops to zero is
    removed; otherwise it stays with one point less. */
module Bullets {

  datatype EnemyKind = Normal | Boss

  /** Positions are percentages of the play field. */
  datatype Bullet = Bullet(id: int, x: real, y: real, speed: real)

  datatype Enemy = Enemy(
    id: int, x: real, y: real, speed: real, kind: EnemyKind,
    imageType: int, scale: real, health: int, maxHealth: int)

  /** Distance a bullet travels per frame. */
  const BulletSpeed := 2.0

  /** Centre distance below which a bullet hits an enemy. */
  const CollisionThreshold := 5.0

  /** Strictly closer than the threshold (compared squared: both sides are
      non-negative). */
  predicate Collides(b: Bullet, e: Enemy)
  {
    (b.x - e.x) * (b.x - e.x) + (b.y - e.y) * (b.y - e.y) < CollisionThreshold * CollisionThreshold
  }

  /** The hit test compares squared distances: for the non-negative root `d`
      of the squared centre distance (the distance `checkCollision` computes
      with `Math.sqrt`), a collision is exactly `d` below the threshold. */
  lemma CollidesIffDistanceBelow(b: Bullet, e: Enemy, d: real)
    requires d >= 0.0 && d * d == (b.x - e.x) * (b.x - e.x) + (b.y - e.y) * (b.y - e.y)
    ensures Collides(b, e) <==> d < CollisionThreshold
  {
    if d < CollisionThreshold {
      assert d * d < CollisionThreshold * CollisionThreshold by {
        assert d * d <= d * CollisionThreshold;
      }
    } else {
      assert d * d >= CollisionThreshold * CollisionThreshold by {
        assert d * d >= d * CollisionThreshold;
      }
    }
  }

  function Advance(b: Bullet): (r: Bullet)
    ensures r.id == b.id && r.x == b.x && r.speed == b.speed
    ensures r.y == b.y - b.speed
  {
    b.(y := b.y - b.speed)
  }

  function AdvanceAll(bs: seq<Bullet>): (r: seq<Bullet>)
    ensures |r| == |bs|
    ensures forall i :: 0 <= i < |bs| ==> r[i] == Advance(bs[i])
  {
    seq(|bs|, i requires 0 <= i < |bs| => Advance(bs[i]))
  }

  function Damage(e: Enemy): (d: Enemy)
    ensures d == e.(health := e.health - 1)
  {
    e.(health := e.health - 1)
  }

  /** The first enemy at or after `j` that the bullet overlaps, or |es|. */
  function FirstHit(b: Bullet, es: seq<Enemy>, j: nat): (k: nat)
    requires j <= |es|
    ensures j <= k <= |es|
    ensures k < |es| ==> Collides(b, es[k])
    ensures forall i :: j <= i < k ==> !Collides(b, es[i])
    decreases |es| - j
  {
    if j == |es| then j
    else if Collides(b, es[j]) then j
    else FirstHit(b, es, j + 1)
  }

  datatype CollisionResult = CollisionResult(
    hitEnemies: seq<Enemy>,
    damagedEnemies: seq<Enemy>,
    remainingBullets: seq<Bullet>,
    remainingEnemies: seq<Enemy>)

  /** The effect of one already-advanced bullet on the running result. */
  function Step(acc: CollisionResult, b: Bullet): CollisionResult
  {
    if b.y < 0.0 then acc
    else
      var es := acc.remainingEnemies;
      var k := FirstHit(b, es, 0);
      if k == |es| then
        acc.(remainingBullets := acc.remainingBullets + [b])
      else
        var d := Damage(es[k]);
        if d.health <= 0 then
          acc.(hitEnemies := acc.hitEnemies + [d], remainingEnemies := es[..k] + es[k + 1..])
        else
          acc.(damagedEnemies := acc.damagedEnemies + [d], remainingEnemies := es[k := d])
  }

  /** Resolves already-advanced bullets, in order, against the enemies. */
  function Resolve(bs: seq<Bullet>, enemies: seq<Enemy>): CollisionResult
  {
    if bs == [] then CollisionResult([], [], [], enemies)
    else Step(Resolve(bs[..|bs| - 1], enemies), bs[|bs| - 1])
  }

  /** One frame of the bullet system. */
  function UpdateResult(bullets: seq<Bullet>, enemies: seq<Enemy>): CollisionResult
  {
    Resolve(AdvanceAll(bullets), enemies)
  }

  /** Bullets still inside the field. */
  function OnScreen(bs: seq<Bullet>): (r: seq<Bullet>)
    ensures |r| <= |bs|
    ensures forall b :: b in r <==> b in bs && b.y >= 0.0
  {
    if bs == [] then []
    else OnScreen(bs[..|bs| - 1]) + (if bs[|bs| - 1].y >= 0.0 then [bs[|bs| - 1]] else [])
  }

  /** Each bullet with y >= 0 is kept as often as it occurs, every other one
      is dropped. */
  lemma {:induction false} OnScreenMultiplicity(bs: seq<Bullet>)
    ensures forall b :: multiset(OnScreen(bs))[b] == if b.y >= 0.0 then multiset(bs)[b] else 0
  {
    if bs != [] {
      var init, last := bs[..|bs| - 1], bs[|bs| - 1];
      assert bs == init + [last];
      OnScreenMultiplicity(init);
    }
  }

  /** Filtering keeps list order: the bullets of a concatenation are those of
      the first part followed by those of the second. */
  lemma {:induction false} OnScreenConcat(a: seq<Bullet>, b: seq<Bullet>)
    ensures OnScreen(a + b) == OnScreen(a) + OnScreen(b)
    decreases |b|
  {
    if b == [] {
      assert a + b == a;
    } else {
      var init, last := b[..|b| - 1], b[|b| - 1];
      var tail := if last.y >= 0.0 then [last] else [];
      assert (a + b)[..|a + b| - 1] == a + init && (a + b)[|a + b| - 1] == last;
      assert OnScreen(a + b) == OnScreen(a + init) + tail;
      OnScreenConcat(a, init);
      assert OnScreen(b) == OnScreen(init) + tail;
    }
  }

  function HealthSum(es: seq<Enemy>): int
  {
    if es == [] then 0 else HealthSum(es[..|es| - 1]) + es[|es| - 1].health
  }

  lemma {:induction false} HealthSumAppend(a: seq<Enemy>, b: seq<Enemy>)
    ensures HealthSum(a + b) == HealthSum(a) + HealthSum(b)
    decreases |b|
  {
    if b == [] {
      assert a + b == a;
    } else {
      assert (a + b)[..|a + b| - 1] == a + b[..|b| - 1];
      HealthSumAppend(a, b[..|b| - 1]);
    }
  }

  lemma HealthSumRemove(es: seq<Enemy>, k: nat)
    requires k < |es|
    ensures HealthSum(es[..k] + es[k + 1..]) == HealthSum(es) - es[k].health
  {
    assert es == es[..k] + ([es[k]] + es[k + 1..]);
    HealthSumAppend(es[..k], [es[k]] + es[k + 1..]);
    HealthSumAppend([es[k]], es[k + 1..]);
    HealthSumAppend(es[..k], es[k + 1..]);
    assert HealthSum([es[k]]) == es[k].health by {
      assert [es[k]][..0] == [];
    }
  }

  lemma HealthSumDamage(es: seq<Enemy>, k: nat)
    requires k < |es|
    ensures HealthSum(es[k := Damage(es[k])]) == HealthSum(es) - 1
  {
    HealthSumRemove(es, k);
    HealthSumRemove(es[k := Damage(es[k])], k);
    assert es[k := Damage(es[k])][..k] == es[..k];
    assert es[k := Damage(es[k])][k + 1..] == es[k + 1..];
  }

  /** Every on-screen bullet ends in exactly one of the three lists, no enemy
      is lost or invented, and every collision costs exactly one health point. */
  lemma {:induction false} ResolveAccounting(bs: seq<Bullet>, enemies: seq<Enemy>)
    ensures var r := Resolve(bs, enemies);
            |r.remainingBullets| + |r.hitEnemies| + |r.damagedEnemies| == |OnScreen(bs)| &&
            |r.hitEnemies| + |r.remainingEnemies| == |enemies| &&
            HealthSum(r.remainingEnemies) + HealthSum(r.hitEnemies) ==
              HealthSum(enemies) - |r.hitEnemies| - |r.damagedEnemies|
  {
    if bs != [] {
      var init := bs[..|bs| - 1];
      var b := bs[|bs| - 1];
      ResolveAccounting(init, enemies);
      var acc := Resolve(init, enemies);
      var es := acc.remainingEnemies;
      assert OnScreen(bs) == OnScreen(init) + (if b.y >= 0.0 then [b] else []);
      if b.y >= 0.0 {
        var k := FirstHit(b, es, 0);
        if k < |es| {
          var d := Damage(es[k]);
          if d.health <= 0 {
            HealthSumRemove(es, k);
            HealthSumAppend(acc.hitEnemies, [d]);
            assert HealthSum([d]) == d.health by {
              assert [d][..0] == [];
            }
          } else {
            HealthSumDamage(es, k);
          }
        }
      }
    }
  }

  /** No surviving bullet overlaps a surviving enemy, and every surviving
      bullet is inside the field. */
  predicate Separated(r: CollisionResult)
  {
    (forall i, j :: 0 <= i < |r.remainingBullets| && 0 <= j < |r.remainingEnemies| ==>
       !Collides(r.remainingBullets[i], r.remainingEnemies[j])) &&
    (forall i :: 0 <= i < |r.remainingBullets| ==> r.remainingBullets[i].y >= 0.0)
  }

  /** Defeated enemies have no health left, damaged ones have some. */
  predicate HealthSorted(r: CollisionResult)
  {
    (forall i :: 0 <= i < |r.hitEnemies| ==> r.hitEnemies[i].health <= 0) &&
    (forall i :: 0 <= i < |r.damagedEnemies| ==> r.damagedEnemies[i].health >= 1)
  }

  lemma SeparatedAfterRemoval(bs: seq<Bullet>, es: seq<Enemy>, k: nat)
    requires k < |es|
    requires Separated(CollisionResult([], [], bs, es))
    ensures Separated(CollisionResult([], [], bs, es[..k] + es[k + 1..]))
  {
    var rest := es[..k] + es[k + 1..];
    forall i, j | 0 <= i < |bs| && 0 <= j < |rest|
      ensures !Collides(bs[i], rest[j])
    {
      if j < k {
        assert rest[j] == es[j];
      } else {
        assert rest[j] == es[j + 1];
      }
    }
  }

  lemma SeparatedAfterDamage(bs: seq<Bullet>, es: seq<Enemy>, k: nat)
    requires k < |es|
    requires Separated(CollisionResult([], [], bs, es))
    ensures Separated(CollisionResult([], [], bs, es[k := Damage(es[k])]))
  {
    var next := es[k := Damage(es[k])];
    forall i, j | 0 <= i < |bs| && 0 <= j < |next|
      ensures !Collides(bs[i], next[j])
    {
      assert next[j].x == es[j].x && next[j].y == es[j].y;
    }
  }

  lemma SeparatedAfterMiss(bs: seq<Bullet>, es: seq<Enemy>, b: Bullet)
    requires Separated(CollisionResult([], [], bs, es))
    requires b.y >= 0.0 && forall j :: 0 <= j < |es| ==> !Collides(b, es[j])
    ensures Separated(CollisionResult([], [], bs + [b], es))
  {
    var next := bs + [b];
    forall i, j | 0 <= i < |next| && 0 <= j < |es|
      ensures !Collides(next[i], es[j])
    {
      if i < |bs| {
        assert next[i] == bs[i];
      }
    }
  }

  lemma StepSeparates(acc: CollisionResult, b: Bullet)
    requires Separated(acc)
    ensures Separated(Step(acc, b))
  {
    var bs, es := acc.remainingBullets, acc.remainingEnemies;
    assert Separated(CollisionResult([], [], bs, es));
    if b.y >= 0.0 {
      var k := FirstHit(b, es, 0);
      if k < |es| {
        if Damage(es[k]).health <= 0 {
          SeparatedAfterRemoval(bs, es, k);
        } else {
          SeparatedAfterDamage(bs, es, k);
        }
      } else {
        SeparatedAfterMiss(bs, es, b);
      }
    }
  }

  /** After a frame no surviving bullet overlaps a surviving enemy, every
      surviving bullet is inside the field, defeated enemies have no health
      left and damaged ones have some. */
  lemma {:induction false} ResolveSeparates(bs: seq<Bullet>, enemies: seq<Enemy>)
    ensures Separated(Resolve(bs, enemies))
    ensures HealthSorted(Resolve(bs, enemies))
  {
    if bs != [] {
      ResolveSeparates(bs[..|bs| - 1], enemies);
      StepSeparates(Resolve(bs[..|bs| - 1], enemies), bs[|bs| - 1]);
    }
  }

  /** With no overlap at all, every on-screen bullet survives and every enemy
      is untouched. */
  lemma {:induction false} ResolveWithoutContact(bs: seq<Bullet>, enemies: seq<Enemy>)
    requires forall i, j :: 0 <= i < |bs| && 0 <= j < |enemies| ==> !Collides(bs[i], enemies[j])
    ensures Resolve(bs, enemies) == CollisionResult([], [], OnScreen(bs), enemies)
  {
    if bs != [] {
      var init := bs[..|bs| - 1];
      ResolveWithoutContact(init, enemies);
      var b := bs[|bs| - 1];
      if b.y >= 0.0 {
        var k := FirstHit(b, enemies, 0);
        if k < |enemies| {
          assert false;
        }
      }
    }
  }

  predicate IdsIncreasing(bs: seq<Bullet>)
  {
    forall i, j :: 0 <= i < j < |bs| ==> bs[i].id < bs[j].id
  }

  /** Surviving bullets are taken from the input in order, so bullets created
      with increasing ids keep them increasing. */
  lemma {:induction false} ResolveKeepsOrder(bs: seq<Bullet>, enemies: seq<Enemy>)
    requires IdsIncreasing(bs)
    ensures var kept := Resolve(bs, enemies).remainingBullets;
            IdsIncreasing(kept) && forall b :: b in kept ==> b in bs
  {
    if bs != [] {
      var init := bs[..|bs| - 1];
      var b := bs[|bs| - 1];
      assert IdsIncreasing(init);
      ResolveKeepsOrder(init, enemies);
      var kept := Resolve(init, enemies).remainingBullets;
      forall x | x in kept
        ensures x.id < b.id
      {
        var i :| 0 <= i < |init| && init[i] == x;
        assert bs[i] == x;
      }
    }
  }

  /** Advancing keeps ids, so the increasing order survives a whole frame. */
  lemma UpdateKeepsOrder(bullets: seq<Bullet>, enemies: seq<Enemy>)
    requires IdsIncreasing(bullets)
    ensures IdsIncreasing(UpdateResult(bullets, enemies).remainingBullets)
  {
    ResolveKeepsOrder(AdvanceAll(bullets), enemies);
  }

  /** One bullet meeting a two-point enemy head on damages it; meeting a
      one-point enemy it defeats it. Either way the bullet is spent. */
  lemma SingleHit(e: Enemy)
    requires e.y >= 0.0
    ensures e.health == 2 ==>
              Resolve([Bullet(0, e.x, e.y, BulletSpeed)], [e]) ==
                CollisionResult([], [e.(health := 1)], [], [e.(health := 1)])
    ensures e.health == 1 ==>
              Resolve([Bullet(0, e.x, e.y, BulletSpeed)], [e]) ==
                CollisionResult([e.(health := 0)], [], [], [])
  {
    var b := Bullet(0, e.x, e.y, BulletSpeed);
    assert Collides(b, e);
    assert [b][..0] == [];
  }

  /** The bullet store of one game. */
  class BulletSystem {
    var bullets: seq<Bullet>
    var nextId: int

    predicate Valid()
      reads this
    {
      nextId >= 0 && IdsIncreasing(bullets) &&
      forall i :: 0 <= i < |bullets| ==> bullets[i].id < nextId
    }

    constructor ()
      ensures bullets == [] && nextId == 0
      ensures Valid()
    {
      bullets := [];
      nextId := 0;
    }

    /** Appends a bullet at (x, y) with the next id and the standard speed. */
    method CreateBullet(x: real, y: real)
      requires Valid()
      modifies this
      ensures bullets == old(bullets) + [Bullet(old(nextId), x, y, BulletSpeed)]
      ensures nextId == old(nextId) + 1
      ensures Valid()
    {
      bullets := bullets + [Bullet(nextId, x, y, BulletSpeed)];
      nextId := nextId + 1;
    }

    /** Removes every bullet; ids keep counting. */
    method ClearBullets()
      requires Valid()
      modifies this
      ensures bullets == [] && nextId == old(nextId)
      ensures Valid()
    {
      bullets := [];
    }

    /** Advances every bullet, drops those that left the field, and lets each
        remaining bullet in turn damage the first enemy it overlaps. */
    method UpdateBullets(enemies: seq<Enemy>) returns (r: CollisionResult)
      requires Valid()
      modifies this
      ensures r == UpdateResult(old(bullets), enemies)
      ensures bullets == r.remainingBullets && nextId == old(nextId)
      ensures Valid()
    {
      var hitEnemies: seq<Enemy> := [];
      var damagedEnemies: seq<Enemy> := [];
      var remainingBullets: seq<Bullet> := [];
      var remainingEnemies := enemies;
      var updated := AdvanceAll(bullets);
      var n := 0;
      while n < |updated|
        invariant 0 <= n <= |updated|
        invariant CollisionResult(hitEnemies, damagedEnemies, remainingBullets, remainingEnemies) ==
                  Resolve(updated[..n], enemies)
      {
        var b := updated[n];
        ghost var before := CollisionResult(hitEnemies, damagedEnemies, remainingBullets, remainingEnemies);
        assert updated[..n + 1][..n] == updated[..n];
        if b.y >= 0.0 {
          ghost var k := FirstHit(b, remainingEnemies, 0);
          var bulletHit := false;
          var i := 0;
          while i < |remainingEnemies|
            invariant 0 <= i <= |remainingEnemies| && i <= k
            invariant !bulletHit
            invariant CollisionResult(hitEnemies, damagedEnemies, remainingBullets, remainingEnemies) == before
          {
            if Collides(b, remainingEnemies[i]) {
              assert k == i;
              var damaged := Damage(remainingEnemies[i]);
              if damaged.health <= 0 {
                hitEnemies := hitEnemies + [damaged];
                remainingEnemies := remainingEnemies[..i] + remainingEnemies[i + 1..];
              } else {
                damagedEnemies := damagedEnemies + [damaged];
                remainingEnemies := remainingEnemies[i := damaged];
              }
              bulletHit := true;
              break;
            }
            i := i + 1;
          }
          if !bulletHit {
            remainingBullets := remainingBullets + [b];
          }
          assert CollisionResult(hitEnemies, damagedEnemies, remainingBullets, remainingEnemies) ==
                 Step(before, b);
        }
        n := n + 1;
      }
      assert updated[..n] == updated;
      r := CollisionResult(hitEnemies, damagedEnemies, remainingBullets, remainingEnemies);
      assert IdsIncreasing(updated);
      ResolveKeepsOrder(updated, enemies);
      forall j | 0 <= j < |remainingBullets|
        ensures remainingBullets[j].id < nextId
      {
        assert remainingBullets[j] in updated;
      }
      bullets := remainingBullets;
    }
  }
}
