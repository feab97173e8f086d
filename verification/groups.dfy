/** Sprite groups as pygame keeps them: an insertion-ordered collection of
    sprites from which `kill()` removes members. Sprites are named by ids;
    which sprites overlap is given, since rectangle geometry is pygame's. */
module Groups {

  type Id = nat

  /** The group left after every member of `dead` has been killed; the
      survivors keep their order. */
  function Without<T(==,!new)>(s: seq<T>, dead: set<T>): (r: seq<T>)
    ensures forall x :: x in r <==> x in s && x !in dead
  {
    if s == [] then []
    else (if s[0] in dead then [] else [s[0]]) + Without(s[1..], dead)
  }

  /** Killing never grows a group, and shrinks it exactly when some member
      is killed. */
  lemma {:induction false} WithoutLength<T(!new)>(s: seq<T>, dead: set<T>)
    ensures |Without(s, dead)| <= |s|
    ensures |Without(s, dead)| == |s| <==> forall x :: x in s ==> x !in dead
  {
    if s != [] {
      WithoutLength(s[1..], dead);
    }
  }

  /** Killing members of a group one at a time, in group order, builds the
      same survivors as killing them all at once. */
  lemma {:induction false} WithoutAppend<T(!new)>(s: seq<T>, x: T, dead: set<T>)
    ensures Without(s + [x], dead) == Without(s, dead) + (if x in dead then [] else [x])
  {
    if s != [] {
      assert (s + [x])[1..] == s[1..] + [x];
      WithoutAppend(s[1..], x, dead);
    } else {
      assert Without<T>([], dead) == [];
    }
  }

  /** No sprite is in a group twice: a pygame group holds each sprite once. */
  predicate Distinct<T(==)>(s: seq<T>)
  {
    forall i, j :: 0 <= i < j < |s| ==> s[i] != s[j]
  }

  /** Killing members keeps a group free of repeats. */
  lemma {:induction false} WithoutDistinct<T(!new)>(s: seq<T>, dead: set<T>)
    requires Distinct(s)
    ensures Distinct(Without(s, dead))
  {
    if s != [] {
      WithoutDistinct(s[1..], dead);
      assert s[0] !in s[1..] by {
        forall k | 0 <= k < |s[1..]| ensures s[1..][k] != s[0] {
          assert s[1..][k] == s[k + 1];
        }
      }
    }
  }

  /** A pass over the group in which every member of `dead` calls kill(). */
  method KillEach<T(==,!new)>(group: seq<T>, dead: set<T>) returns (r: seq<T>)
    ensures r == Without(group, dead)
  {
    r := [];
    for i := 0 to |group|
      invariant r == Without(group[..i], dead)
    {
      assert group[..i + 1] == group[..i] + [group[i]];
      WithoutAppend(group[..i], group[i], dead);
      if group[i] !in dead {
        r := r + [group[i]];
      }
    }
    assert group[..|group|] == group;
  }

  /** The arrows that overlap `ball`, read off the overlap relation of
      (ball, arrow) pairs. */
  function Touching(ball: Id, hits: set<(Id, Id)>): (r: set<Id>)
    ensures forall a :: a in r <==> (ball, a) in hits
  {
    set pair | pair in hits && pair.0 == ball :: pair.1
  }

  /** What `pygame.sprite.groupcollide(balls, arrows, True, True)` leaves
      behind, and `sum(len(v) for v in collisions.values())`. */
  datatype Collisions = Collisions(ballsLeft: seq<Id>, arrowsLeft: seq<Id>, destroyed: nat)

  /** groupcollide with both kill flags: each ball in group order takes every
      arrow that is still in the arrow group and overlaps it; those arrows are
      killed at once, so a later ball can no longer take them; a ball that
      took at least one arrow is killed. `destroyed` adds up the lengths of
      the lists of arrows taken. */
  function Collide(balls: seq<Id>, arrows: seq<Id>, hits: set<(Id, Id)>): (c: Collisions)
    ensures c.destroyed == |arrows| - |c.arrowsLeft|
    ensures |balls| - |c.ballsLeft| <= c.destroyed
    ensures forall b :: b in c.ballsLeft ==> b in balls
    ensures forall a :: a in c.arrowsLeft ==> a in arrows
    decreases |balls|
  {
    if balls == [] then Collisions([], arrows, 0)
    else
      var spared := Without(arrows, Touching(balls[0], hits));
      WithoutLength(arrows, Touching(balls[0], hits));
      var rest := Collide(balls[1..], spared, hits);
      if |spared| < |arrows| then rest.(destroyed := rest.destroyed + (|arrows| - |spared|))
      else rest.(ballsLeft := [balls[0]] + rest.ballsLeft)
  }

  /** Which sprites groupcollide removes: an arrow goes exactly when some
      ball overlaps it; a ball goes only if some arrow overlaps it, and
      stays if none does. */
  lemma {:induction false} CollideRemoves(balls: seq<Id>, arrows: seq<Id>, hits: set<(Id, Id)>)
    ensures var c := Collide(balls, arrows, hits);
      && (forall a :: a in c.arrowsLeft <==> a in arrows && forall b :: b in balls ==> (b, a) !in hits)
      && (forall b :: b in balls && b !in c.ballsLeft ==> exists a :: a in arrows && (b, a) in hits)
      && (forall b :: b in balls && (forall a :: a in arrows ==> (b, a) !in hits) ==> b in c.ballsLeft)
    decreases |balls|
  {
    if balls != [] {
      var spared := Without(arrows, Touching(balls[0], hits));
      WithoutLength(arrows, Touching(balls[0], hits));
      CollideRemoves(balls[1..], spared, hits);
    }
  }

  /** The balls groupcollide leaves are still free of repeats. */
  lemma {:induction false} CollideDistinct(balls: seq<Id>, arrows: seq<Id>, hits: set<(Id, Id)>)
    requires Distinct(balls)
    ensures Distinct(Collide(balls, arrows, hits).ballsLeft)
    decreases |balls|
  {
    if balls != [] {
      var spared := Without(arrows, Touching(balls[0], hits));
      CollideDistinct(balls[1..], spared, hits);
      assert balls[0] !in balls[1..] by {
        forall k | 0 <= k < |balls[1..]| ensures balls[1..][k] != balls[0] {
          assert balls[1..][k] == balls[k + 1];
        }
      }
    }
  }

  /** The arrows groupcollide leaves are still free of repeats. */
  lemma {:induction false} CollideArrowsDistinct(balls: seq<Id>, arrows: seq<Id>, hits: set<(Id, Id)>)
    requires Distinct(arrows)
    ensures Distinct(Collide(balls, arrows, hits).arrowsLeft)
    decreases |balls|
  {
    if balls != [] {
      var spared := Without(arrows, Touching(balls[0], hits));
      WithoutDistinct(arrows, Touching(balls[0], hits));
      CollideArrowsDistinct(balls[1..], spared, hits);
    }
  }

  /** Ball `i` is the first ball, in group order, to overlap some arrow: the
      arrow is still there when groupcollide reaches it. */
  predicate ClaimsArrow(balls: seq<Id>, arrows: seq<Id>, hits: set<(Id, Id)>, i: nat)
    requires i < |balls|
  {
    exists a :: a in arrows && (balls[i], a) in hits && forall j :: 0 <= j < i ==> (balls[j], a) !in hits
  }

  /** Which balls groupcollide kills: exactly those that overlap an arrow no
      earlier ball has taken. */
  lemma {:induction false} CollideKillsBalls(balls: seq<Id>, arrows: seq<Id>, hits: set<(Id, Id)>)
    requires Distinct(balls)
    ensures forall i :: 0 <= i < |balls| ==>
      (balls[i] !in Collide(balls, arrows, hits).ballsLeft <==> ClaimsArrow(balls, arrows, hits, i))
    decreases |balls|
  {
    if balls != [] {
      var touched := Touching(balls[0], hits);
      var spared := Without(arrows, touched);
      WithoutLength(arrows, touched);
      var tail := balls[1..];
      CollideKillsBalls(tail, spared, hits);
      var c := Collide(balls, arrows, hits);
      var rest := Collide(tail, spared, hits);
      forall i | 0 <= i < |balls|
        ensures balls[i] !in c.ballsLeft <==> ClaimsArrow(balls, arrows, hits, i)
      {
        if i == 0 {
          assert balls[0] !in tail by {
            forall k | 0 <= k < |tail| ensures tail[k] != balls[0] {
              assert tail[k] == balls[k + 1];
            }
          }
          if |spared| < |arrows| {
            var a :| a in arrows && a in touched;
            assert (balls[0], a) in hits;
          }
        } else {
          assert balls[i] == tail[i - 1];
          assert balls[i] != balls[0];
          assert balls[i] in c.ballsLeft <==> balls[i] in rest.ballsLeft;
          if ClaimsArrow(balls, arrows, hits, i) {
            var a :| a in arrows && (balls[i], a) in hits && forall j :: 0 <= j < i ==> (balls[j], a) !in hits;
            assert (balls[0], a) !in hits;
            assert a in spared;
            forall j | 0 <= j < i - 1 ensures (tail[j], a) !in hits {
              assert tail[j] == balls[j + 1];
            }
            assert ClaimsArrow(tail, spared, hits, i - 1);
          }
          if ClaimsArrow(tail, spared, hits, i - 1) {
            var a :| a in spared && (tail[i - 1], a) in hits && forall j :: 0 <= j < i - 1 ==> (tail[j], a) !in hits;
            forall j | 0 <= j < i ensures (balls[j], a) !in hits {
              if j > 0 {
                assert balls[j] == tail[j - 1];
              }
            }
            assert ClaimsArrow(balls, arrows, hits, i);
          }
        }
      }
    }
  }

  /** groupcollide as the loop pygame runs over the ball group. */
  method GroupCollide(balls: seq<Id>, arrows: seq<Id>, hits: set<(Id, Id)>)
    returns (ballsLeft: seq<Id>, arrowsLeft: seq<Id>, destroyed: nat)
    ensures Collisions(ballsLeft, arrowsLeft, destroyed) == Collide(balls, arrows, hits)
  {
    ballsLeft, arrowsLeft, destroyed := [], arrows, 0;
    var i := 0;
    while i < |balls|
      invariant 0 <= i <= |balls|
      invariant var c := Collide(balls[i..], arrowsLeft, hits);
        Collide(balls, arrows, hits) == Collisions(ballsLeft + c.ballsLeft, c.arrowsLeft, destroyed + c.destroyed)
    {
      assert balls[i..][1..] == balls[i + 1..];
      var taken := Without(arrowsLeft, Touching(balls[i], hits));
      if |taken| < |arrowsLeft| {
        destroyed := destroyed + (|arrowsLeft| - |taken|);
      } else {
        ballsLeft := ballsLeft + [balls[i]];
      }
      arrowsLeft := taken;
      i := i + 1;
    }
    assert balls[i..] == [];
  }

  /** `pygame.sprite.spritecollide(sprite, group, True)` is non-empty: some
      member of the group overlaps the sprite. */
  predicate Struck(group: seq<Id>, touching: set<Id>)
  {
    exists x :: x in group && x in touching
  }

  /** `n` new ids counting up from `start`. */
  function FreshIds(start: Id, n: nat): (r: seq<Id>)
    ensures |r| == n
    ensures forall k :: 0 <= k < n ==> r[k] == start + k
  {
    seq(n, k => start + k)
  }

  /** Appending ids from a counter past every member keeps a group free of
      repeats. */
  lemma AppendFresh(group: seq<Id>, start: Id, n: nat)
    requires Distinct(group) && Below(group, start)
    ensures Distinct(group + FreshIds(start, n))
  {
    var r := group + FreshIds(start, n);
    forall i, j | 0 <= i < j < |r| ensures r[i] != r[j] {
      if j >= |group| && i < |group| {
        assert r[i] in group;
      }
    }
  }

  /** Every id in the group is below `bound`. */
  predicate Below(group: seq<Id>, bound: Id)
  {
    forall x :: x in group ==> x < bound
  }
}
