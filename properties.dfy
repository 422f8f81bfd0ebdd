/**
  What the game rules promise: which enemy a shot kills and what it is
  worth, where the grid is placed, and what stays true over any sequence
  of ticks, timer callbacks and key events.
 */
module GameProperties {
  import opened Geometry
  import opened GameRules

  // ------------------------------------------------------ list bookkeeping

  lemma TagSumSnoc(a: seq<Enemy>, e: Enemy)
    ensures TagSum(a + [e]) == TagSum(a) + e.tag
  {
    assert (a + [e])[..|a|] == a;
  }

  /** Removing one enemy removes exactly its points from the total. */
  lemma {:induction false} TagSumRemoveAt(es: seq<Enemy>, i: nat)
    requires i < |es|
    ensures TagSum(RemoveAt(es, i)) == TagSum(es) - es[i].tag
    decreases |es|
  {
    var n := |es| - 1;
    var init := es[..n];
    if i == n {
      assert RemoveAt(es, i) == init;
    } else {
      TagSumRemoveAt(init, i);
      assert RemoveAt(es, i) == RemoveAt(init, i) + [es[n]];
      TagSumSnoc(RemoveAt(init, i), es[n]);
    }
  }

  /** Removing one enemy leaves every other enemy, once each. */
  lemma RemoveAtMultiset(es: seq<Enemy>, i: nat)
    requires i < |es|
    ensures multiset(RemoveAt(es, i)) == multiset(es) - multiset{es[i]}
  {
    assert es == es[..i] + [es[i]] + es[i + 1..];
  }

  // ---------------------------------------------------------- the shot

  /**
    A shot that overlaps some grid enemy j kills exactly one enemy: the one
    with the highest index among those it overlaps (at or above j). Its
    points are added, the shot is gone, the other enemies keep their order
    and the special enemy is untouched.
   */
  lemma HitKillsLastOverlappingEnemy(s: State, j: nat)
    requires s.playerProjectile.Some? && s.playerProjectile.value.y >= 0.0
    requires j < |s.enemies| && CheckCollision(s.playerProjectile.value, s.enemies[j].rect)
    ensures var r := HandleProjectile(s);
      exists i :: j <= i < |s.enemies| &&
        CheckCollision(s.playerProjectile.value, s.enemies[i].rect) &&
        (forall k :: i < k < |s.enemies| ==> !CheckCollision(s.playerProjectile.value, s.enemies[k].rect)) &&
        r.enemies == s.enemies[..i] + s.enemies[i + 1..] &&
        r.score == s.score + s.enemies[i].tag &&
        r.playerProjectile.None? &&
        r.specialEnemy == s.specialEnemy &&
        r.playerLeft == s.playerLeft
  {
    var shot := s.playerProjectile.value;
    var i := LastHit(shot, s.enemies).value;
    assert j <= i;
  }

  /**
    A shot kills at most one enemy and scores exactly what it kills: either
    one grid enemy left (in place, the rest keeping their order) and its tag
    was added with the special enemy untouched, or the grid is unchanged and
    either nothing was scored or the special enemy left and its tag was added.
   */
  lemma HandleProjectileScoresWhatItKills(s: State)
    ensures var r := HandleProjectile(s);
      r.enemies == s.enemies ||
      (exists i :: 0 <= i < |s.enemies| &&
         r.enemies == RemoveAt(s.enemies, i) && r.score == s.score + s.enemies[i].tag &&
         r.specialEnemy == s.specialEnemy)
    ensures var r := HandleProjectile(s);
      r.enemies == s.enemies ==>
        (r.score == s.score && r.specialEnemy == s.specialEnemy) ||
        (s.specialEnemy.Some? && r.specialEnemy.None? && r.score == s.score + s.specialEnemy.value.tag)
  {
    if s.playerProjectile.Some? && s.playerProjectile.value.y >= 0.0 {
      var hit := LastHit(s.playerProjectile.value, s.enemies);
      if hit.Some? {
        assert |RemoveAt(s.enemies, hit.value)| < |s.enemies|;
      }
    }
  }

  /** The backward scan's first hit is the highest overlapping index. */
  lemma LastHitIs(shot: Rect, es: seq<Enemy>, i: nat)
    requires i < |es| && CheckCollision(shot, es[i].rect)
    requires forall j :: i < j < |es| ==> !CheckCollision(shot, es[j].rect)
    ensures LastHit(shot, es) == Some(i)
  {
  }

  /**
    The special enemy is only tried when no grid enemy was hit; then it and
    the shot both go, and its points are added.
   */
  lemma SpecialHitOnlyWhenGridMissed(s: State)
    requires s.playerProjectile.Some? && s.playerProjectile.value.y >= 0.0
    requires forall k :: 0 <= k < |s.enemies| ==> !CheckCollision(s.playerProjectile.value, s.enemies[k].rect)
    requires s.specialEnemy.Some? && CheckCollision(s.playerProjectile.value, s.specialEnemy.value.rect)
    ensures HandleProjectile(s) ==
      s.(playerProjectile := None, specialEnemy := None, score := s.score + s.specialEnemy.value.tag)
  {
  }

  /** A shot that hits nothing survives, ten units higher; nothing else changes. */
  lemma MissMovesShotUp(s: State)
    requires s.playerProjectile.Some? && s.playerProjectile.value.y >= 0.0
    requires forall k :: 0 <= k < |s.enemies| ==> !CheckCollision(s.playerProjectile.value, s.enemies[k].rect)
    requires s.specialEnemy.Some? ==> !CheckCollision(s.playerProjectile.value, s.specialEnemy.value.rect)
    ensures HandleProjectile(s) ==
      s.(playerProjectile := Some(s.playerProjectile.value.(y := s.playerProjectile.value.y - 10.0)))
  {
  }

  /** A shot whose top is already above the canvas is removed without scoring. */
  lemma OffscreenShotIsRemoved(s: State)
    requires s.playerProjectile.Some? && s.playerProjectile.value.y < 0.0
    ensures HandleProjectile(s) == s.(playerProjectile := None)
  {
  }

  /** Without key presses, a shot whose top is below 10 * (n - 1) is gone after n ticks. */
  lemma {:induction false} ShotLeavesCanvas(s: State, layout: Layout, n: nat)
    requires n >= 1
    requires s.playerProjectile.Some? ==> s.playerProjectile.value.y < ProjectileSpeed * (n - 1) as real
    ensures Ticks(s, layout, n).playerProjectile.None?
    decreases n
  {
    var t := Tick(s, layout);
    if n > 1 {
      ShotLeavesCanvas(t, layout, n - 1);
    }
  }

  // ------------------------------------------------------------ key presses

  /** A second Space press while a shot is in flight changes nothing. */
  lemma SpaceWhileShotInFlightIsIgnored(s: State, layout: Layout)
    requires s.playerProjectile.Some?
    ensures KeyDown(s, layout, Space) == s
  {
  }

  /** Pressing Space twice has the effect of pressing it once. */
  lemma SpaceTwiceIsSpaceOnce(s: State, layout: Layout)
    ensures KeyDown(KeyDown(s, layout, Space), layout, Space) == KeyDown(s, layout, Space)
  {
  }

  /** Once the shot is gone, Space fires a new 5 x 15 shot centred above the ship. */
  lemma FireAfterShotIsGone(s: State, layout: Layout)
    requires s.playerProjectile.Some?
    ensures var r := KeyDown(RemoveProjectile(s), layout, Space);
      r.playerProjectile == Some(Rect(s.playerLeft + layout.shipWidth / 2.0 - 2.5, layout.shipTop - 15.0, 5.0, 15.0))
  {
  }

  /** With both arrows held and both guards passing, the rightward move wins. */
  lemma BothArrowsHeldMovesRight(left: real, layout: Layout)
    requires left > 0.0 && left + layout.shipWidth < layout.canvasWidth
    ensures MovePlayer(left, true, true, layout) == left + 8.0
  {
  }

  // --------------------------------------------------------- special enemy

  /** Removing the special enemy or the shot a second time changes nothing. */
  lemma RemovalsAreIdempotent(s: State)
    ensures RemoveSpecialEnemy(RemoveSpecialEnemy(s)) == RemoveSpecialEnemy(s)
    ensures RemoveProjectile(RemoveProjectile(s)) == RemoveProjectile(s)
  {
  }

  /**
    Without timer callbacks, a special enemy whose left edge is beyond
    pageWidth - 3 * (n - 1) has left the page after n ticks.
   */
  lemma {:induction false} SpecialEnemyLeavesPage(s: State, layout: Layout, n: nat)
    requires n >= 1
    requires s.specialEnemy.Some? ==>
      s.specialEnemy.value.rect.x > layout.pageWidth - SpecialEnemySpeed * (n - 1) as real
    ensures Ticks(s, layout, n).specialEnemy.None?
    decreases n
  {
    var t := Tick(s, layout);
    if n > 1 {
      SpecialEnemyLeavesPage(t, layout, n - 1);
    }
  }

  /** A new special enemy is 40 x 20, has its top at 40 and its left at -40, and is worth 200. */
  lemma NewSpecialEnemyGeometry()
    ensures NewSpecialEnemy().rect == Rect(-40.0, 40.0, 40.0, 20.0)
    ensures NewSpecialEnemy().tag == 200
  {
  }

  /**
    A special enemy that has just been created, 40 units left of the page,
    is gone once 3 * (n - 1) exceeds the page width plus those 40 units.
   */
  lemma {:induction false} NewSpecialEnemyLeavesAfter(s: State, layout: Layout, n: nat)
    requires s.specialEnemy.None? && layout.pageWidth >= 0.0
    requires SpecialEnemySpeed * (n - 1) as real > layout.pageWidth + SpecialEnemyWidth
    requires n >= 1
    ensures Ticks(CreateSpecialEnemy(s), layout, n).specialEnemy.None?
  {
    SpecialEnemyLeavesPage(CreateSpecialEnemy(s), layout, n);
  }

  // ------------------------------------------------------------ enemy grid

  /** The enemy at row-major position row * 8 + col is the one placed at (row, col). */
  lemma GridAt(pageWidth: real, row: nat, col: nat)
    requires row < EnemyRows && col < EnemyCols
    ensures row * EnemyCols + col < |Grid(pageWidth)|
    ensures Grid(pageWidth)[row * EnemyCols + col] == GridEnemy(StartX(pageWidth), row, col)
  {
    var k := row * EnemyCols + col;
    assert k / EnemyCols == row && k % EnemyCols == col;
  }

  /** The grid built up to (row, col), then the enemy at (row, col). */
  lemma GridPrefixStep(pageWidth: real, row: nat, col: nat)
    requires row < EnemyRows && col < EnemyCols
    ensures row * EnemyCols + col < |Grid(pageWidth)|
    ensures Grid(pageWidth)[..row * EnemyCols + col + 1] ==
            Grid(pageWidth)[..row * EnemyCols + col] + [GridEnemy(StartX(pageWidth), row, col)]
  {
    GridAt(pageWidth, row, col);
    var g, k := Grid(pageWidth), row * EnemyCols + col;
    assert g[..k + 1] == g[..k] + [g[k]];
  }

  /** Points held by the first k enemies of the grid. */
  function PrefixPoints(k: nat): int
  {
    if k <= 8 then 40 * k else if k <= 24 then 320 + 20 * (k - 8) else 640 + 10 * (k - 24)
  }

  lemma {:induction false} GridPrefixPoints(pageWidth: real, k: nat)
    requires k <= EnemyRows * EnemyCols
    ensures TagSum(Grid(pageWidth)[..k]) == PrefixPoints(k)
  {
    if k > 0 {
      var g := Grid(pageWidth);
      GridPrefixPoints(pageWidth, k - 1);
      assert g[..k][..k - 1] == g[..k - 1];
      assert g[k - 1].tag == RowPoints((k - 1) / EnemyCols);
    }
  }

  /** The 32 grid enemies are worth 8 * 40 + 16 * 20 + 8 * 10 = 720 points. */
  lemma GridPoints(pageWidth: real)
    ensures TagSum(Grid(pageWidth)) == 720
  {
    var g := Grid(pageWidth);
    GridPrefixPoints(pageWidth, |g|);
    assert g[..|g|] == g;
  }

  /** No two grid enemies overlap. */
  lemma GridEnemiesDoNotOverlap(pageWidth: real, i: nat, j: nat)
    requires i < j < |Grid(pageWidth)|
    ensures !CheckCollision(Grid(pageWidth)[i].rect, Grid(pageWidth)[j].rect)
  {
    var ri, ci := i / EnemyCols, i % EnemyCols;
    var rj, cj := j / EnemyCols, j % EnemyCols;
    assert i == ri * EnemyCols + ci && j == rj * EnemyCols + cj;
    if ri == rj {
      assert ci < cj;
    } else {
      assert ri < rj;
    }
  }

  /**
    The grid is centred on the page, and when the page is at least as wide
    as the grid (310 units), every enemy lies within the page.
   */
  lemma GridIsCentred(pageWidth: real)
    ensures var g := Grid(pageWidth);
      g[0].rect.x == pageWidth - (g[EnemyCols - 1].rect.x + g[EnemyCols - 1].rect.width)
    ensures pageWidth >= GridWidth ==> forall k :: 0 <= k < |Grid(pageWidth)| ==>
      0.0 <= Grid(pageWidth)[k].rect.x && Grid(pageWidth)[k].rect.x + EnemyWidth <= pageWidth
  {
    GridAt(pageWidth, 0, 0);
    GridAt(pageWidth, 0, EnemyCols - 1);
    if pageWidth >= GridWidth {
      forall k | 0 <= k < |Grid(pageWidth)|
        ensures 0.0 <= Grid(pageWidth)[k].rect.x && Grid(pageWidth)[k].rect.x + EnemyWidth <= pageWidth
      {
        GridAt(pageWidth, k / EnemyCols, k % EnemyCols);
      }
    }
  }

  // ------------------------------------------------- invariants over a run

  /** Every special enemy is worth SpecialTag. */
  predicate SpecialIsBonus(s: State)
  {
    s.specialEnemy.Some? ==> s.specialEnemy.value.tag == SpecialTag
  }

  /** No enemy is worth negative points. */
  predicate TagsNonNegative(s: State)
  {
    (forall k :: 0 <= k < |s.enemies| ==> s.enemies[k].tag >= 0) &&
    (s.specialEnemy.Some? ==> s.specialEnemy.value.tag >= 0)
  }

  /** The player is never more than one step beyond either edge of the canvas. */
  predicate PlayerNearCanvas(s: State, layout: Layout)
  {
    -PlayerSpeed < s.playerLeft < layout.canvasWidth - layout.shipWidth + PlayerSpeed
  }

  /** Score plus the points still on the grid. */
  function Ledger(s: State): int
  {
    s.score + TagSum(s.enemies)
  }

  /** Resolving a shot moves points from the grid to the score, or adds a special enemy's bonus. */
  lemma HandleProjectileLedger(s: State)
    requires SpecialIsBonus(s)
    ensures SpecialIsBonus(HandleProjectile(s))
    ensures Ledger(HandleProjectile(s)) == Ledger(s) || Ledger(HandleProjectile(s)) == Ledger(s) + SpecialTag
  {
    var h := HandleProjectile(s);
    HandleProjectileScoresWhatItKills(s);
    if h.enemies != s.enemies {
      var i :| 0 <= i < |s.enemies| && h.enemies == RemoveAt(s.enemies, i) &&
               h.score == s.score + s.enemies[i].tag;
      TagSumRemoveAt(s.enemies, i);
    }
  }

  lemma StepLedger(s: State, layout: Layout, ev: Event)
    requires SpecialIsBonus(s)
    ensures SpecialIsBonus(Step(s, layout, ev))
    ensures Ledger(Step(s, layout, ev)) == Ledger(s) ||
            Ledger(Step(s, layout, ev)) == Ledger(s) + SpecialTag
  {
    if ev == GameLoopTick {
      var moved := s.(playerLeft := MovePlayer(s.playerLeft, s.isMovingLeft, s.isMovingRight, layout));
      HandleProjectileLedger(moved);
    }
  }

  lemma MultipleOfBonus(a: int, b: int, c: int)
    requires b == a || b == a + SpecialTag
    requires c >= b && (c - b) % SpecialTag == 0
    ensures c >= a && (c - a) % SpecialTag == 0
  {
  }

  /**
    Points come only from kills: over any run, the score gained equals the
    points of the grid enemies destroyed plus a whole number of special
    enemy bonuses.
   */
  lemma {:induction false} RunLedger(s: State, layout: Layout, evs: seq<Event>)
    requires SpecialIsBonus(s)
    ensures SpecialIsBonus(Run(s, layout, evs))
    ensures Ledger(Run(s, layout, evs)) >= Ledger(s)
    ensures (Ledger(Run(s, layout, evs)) - Ledger(s)) % SpecialTag == 0
    decreases evs
  {
    if evs != [] {
      var t := Step(s, layout, evs[0]);
      var u := Run(t, layout, evs[1..]);
      assert Run(s, layout, evs) == u;
      StepLedger(s, layout, evs[0]);
      RunLedger(t, layout, evs[1..]);
      MultipleOfBonus(Ledger(s), Ledger(t), Ledger(u));
    }
  }

  lemma RemoveAtKeepsTags(es: seq<Enemy>, i: nat)
    requires i < |es| && forall k :: 0 <= k < |es| ==> es[k].tag >= 0
    ensures forall k :: 0 <= k < |RemoveAt(es, i)| ==> RemoveAt(es, i)[k].tag >= 0
  {
    var r := RemoveAt(es, i);
    forall k | 0 <= k < |r| ensures r[k].tag >= 0 {
      if k >= i { assert r[k] == es[k + 1]; }
    }
  }

  /** A shot never adds negative points, and at most removes enemies. */
  lemma HandleProjectileKeepsScoreAndEnemies(s: State)
    requires TagsNonNegative(s)
    ensures TagsNonNegative(HandleProjectile(s))
    ensures HandleProjectile(s).score >= s.score
    ensures multiset(HandleProjectile(s).enemies) <= multiset(s.enemies)
  {
    var h := HandleProjectile(s);
    HandleProjectileScoresWhatItKills(s);
    if h.enemies != s.enemies {
      var i :| 0 <= i < |s.enemies| && h.enemies == RemoveAt(s.enemies, i) &&
               h.score == s.score + s.enemies[i].tag && h.specialEnemy == s.specialEnemy;
      RemoveAtMultiset(s.enemies, i);
      RemoveAtKeepsTags(s.enemies, i);
    }
  }

  lemma StepKeepsScoreAndEnemies(s: State, layout: Layout, ev: Event)
    requires TagsNonNegative(s)
    ensures TagsNonNegative(Step(s, layout, ev))
    ensures Step(s, layout, ev).score >= s.score
    ensures multiset(Step(s, layout, ev).enemies) <= multiset(s.enemies)
  {
    if ev == GameLoopTick {
      var moved := s.(playerLeft := MovePlayer(s.playerLeft, s.isMovingLeft, s.isMovingRight, layout));
      HandleProjectileKeepsScoreAndEnemies(moved);
    }
  }

  /**
    Over any run the score never decreases and enemies only ever leave:
    every enemy at the end was there at the start.
   */
  lemma {:induction false} RunKeepsScoreAndEnemies(s: State, layout: Layout, evs: seq<Event>)
    requires TagsNonNegative(s)
    ensures Run(s, layout, evs).score >= s.score
    ensures multiset(Run(s, layout, evs).enemies) <= multiset(s.enemies)
    decreases evs
  {
    if evs != [] {
      StepKeepsScoreAndEnemies(s, layout, evs[0]);
      RunKeepsScoreAndEnemies(Step(s, layout, evs[0]), layout, evs[1..]);
    }
  }

  /** Over any run the player stays within one step of the canvas. */
  lemma {:induction false} RunKeepsPlayerNearCanvas(s: State, layout: Layout, evs: seq<Event>)
    requires PlayerNearCanvas(s, layout)
    ensures PlayerNearCanvas(Run(s, layout, evs), layout)
    decreases evs
  {
    if evs != [] {
      RunKeepsPlayerNearCanvas(Step(s, layout, evs[0]), layout, evs[1..]);
    }
  }

  /** The page right after loading: no shot, no special enemy, score 0, then the grid. */
  function LoadedPage(shipLeft: real, pageWidth: real): (r: State)
    ensures |r.enemies| == EnemyRows * EnemyCols && TagSum(r.enemies) == 720
    ensures r.score == 0 && r.playerProjectile.None? && r.specialEnemy.None?
    ensures r.playerLeft == shipLeft && !r.isMovingLeft && !r.isMovingRight
  {
    var g := Grid(pageWidth);
    assert [] + g == g;
    GridPoints(pageWidth);
    CreateEnemies(State(shipLeft, false, false, None, [], None, 0), pageWidth)
  }

  /**
    From the loaded page, after any events, the score is exactly the 720
    grid points minus those still on the grid, plus a whole number of
    special enemy bonuses.
   */
  lemma ScoreAccountsForKills(shipLeft: real, layout: Layout, evs: seq<Event>)
    ensures var r := Run(LoadedPage(shipLeft, layout.pageWidth), layout, evs);
      r.score + TagSum(r.enemies) >= 720 && (r.score + TagSum(r.enemies) - 720) % SpecialTag == 0
  {
    var s := LoadedPage(shipLeft, layout.pageWidth);
    var g := Grid(layout.pageWidth);
    assert s.enemies == g by {
      assert [] + g == g;
    }
    GridPoints(layout.pageWidth);
    assert Ledger(s) == 720;
    RunLedger(s, layout, evs);
  }
}
