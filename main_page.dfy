/**
  The game page itself: its fields are updated in place by the timer
  callbacks and the key handlers. Each method is proved to leave the page
  in the state that the matching function of GameRules computes from the
  state before the call.
 */
module SpaceInvaders {
  import opened Geometry
  import opened GameRules
  import GameProperties

  class MainPage {
    var playerLeft: real
    var isMovingLeft: bool
    var isMovingRight: bool
    var playerProjectile: Option<Rect>
    var enemies: seq<Enemy>
    var specialEnemy: Option<Enemy>
    var score: int

    /** The page's game state as a value. */
    function Snapshot(): State
      reads this
    {
      State(playerLeft, isMovingLeft, isMovingRight, playerProjectile, enemies, specialEnemy, score)
    }

    /** A fresh page: the ship where the layout put it, nothing else on the canvas. */
    constructor (shipLeft: real)
      ensures Snapshot() == State(shipLeft, false, false, None, [], None, 0)
    {
      playerLeft := shipLeft;
      isMovingLeft, isMovingRight := false, false;
      playerProjectile := None;
      enemies := [];
      specialEnemy := None;
      score := 0;
    }

    /** One tick of the game loop timer. */
    method GameLoop(layout: Layout)
      modifies this
      ensures Snapshot() == GameRules.Tick(old(Snapshot()), layout)
    {
      var left := playerLeft;
      if isMovingLeft && left > 0.0 {
        playerLeft := left - PlayerSpeed;
      }
      if isMovingRight && left + layout.shipWidth < layout.canvasWidth {
        playerLeft := left + PlayerSpeed;
      }
      HandleProjectile();
      MoveSpecialEnemy(layout.pageWidth);
    }

    /** Appends the 4 x 8 grid, row by row, each row left to right. */
    method CreateEnemies(pageWidth: real)
      modifies this
      ensures Snapshot() == GameRules.CreateEnemies(old(Snapshot()), pageWidth)
      ensures enemies == old(enemies) + Grid(pageWidth)
    {
      var startX := (pageWidth - GridWidth) / 2.0;
      for row := 0 to EnemyRows
        invariant enemies == old(enemies) + Grid(pageWidth)[..row * EnemyCols]
        modifies this`enemies
      {
        for col := 0 to EnemyCols
          invariant enemies == old(enemies) + Grid(pageWidth)[..row * EnemyCols + col]
          modifies this`enemies
        {
          var tag := if row == 0 then 40 else if row < 3 then 20 else 10;
          var left := startX + col as real * (EnemyWidth + EnemySpacing);
          var top := GridTop + row as real * (EnemyHeight + EnemySpacing);
          var enemy := Enemy(Rect(left, top, EnemyWidth, EnemyHeight), tag);
          assert enemy == GridEnemy(StartX(pageWidth), row, col);
          GameProperties.GridPrefixStep(pageWidth, row, col);
          enemies := enemies + [enemy];
        }
      }
      assert Grid(pageWidth)[..EnemyRows * EnemyCols] == Grid(pageWidth);
    }

    /**
      Moves the shot and resolves what it hit. The enemy list is scanned
      from its last element down, and the first overlapping enemy found is
      removed in place.
     */
    method HandleProjectile()
      modifies this
      ensures Snapshot() == GameRules.HandleProjectile(old(Snapshot()))
    {
      if playerProjectile.None? {
        return;
      }
      var shot := playerProjectile.value;
      var top := shot.y;
      playerProjectile := Some(shot.(y := top - ProjectileSpeed));
      if top < 0.0 {
        RemoveProjectile();
        return;
      }
      var projectileRect := Rect(shot.x, top, shot.width, shot.height);
      var i := |enemies| - 1;
      while i >= 0
        invariant -1 <= i < |enemies|
        invariant Snapshot() == old(Snapshot()).(playerProjectile := Some(MovedUp(shot)))
        invariant forall j :: i < j < |enemies| ==> !CheckCollision(projectileRect, enemies[j].rect)
      {
        var enemy := enemies[i];
        if CheckCollision(projectileRect, enemy.rect) {
          ghost var before := old(Snapshot());
          assert GameRules.HandleProjectile(before) ==
            before.(playerProjectile := None, score := score + enemy.tag, enemies := RemoveAt(enemies, i))
          by {
            GameProperties.LastHitIs(shot, enemies, i);
          }
          score := score + enemy.tag;
          enemies := enemies[..i] + enemies[i + 1..];
          RemoveProjectile();
          return;
        }
        i := i - 1;
      }
      if specialEnemy.Some? {
        var special := specialEnemy.value;
        if CheckCollision(projectileRect, special.rect) {
          score := score + special.tag;
          RemoveSpecialEnemy();
          RemoveProjectile();
        }
      }
    }

    /** The special enemy timer: spawns one unless one is already on its way. */
    method CreateSpecialEnemy()
      modifies this
      ensures Snapshot() == GameRules.CreateSpecialEnemy(old(Snapshot()))
      ensures specialEnemy.Some?
    {
      if specialEnemy.Some? {
        return;
      }
      specialEnemy := Some(Enemy(Rect(-SpecialEnemyWidth, SpecialEnemyTop, SpecialEnemyWidth, SpecialEnemyHeight), SpecialTag));
    }

    /** Moves the special enemy right; it leaves once its left edge, before the move, is past the page. */
    method MoveSpecialEnemy(pageWidth: real)
      modifies this
      ensures Snapshot() == GameRules.MoveSpecialEnemy(old(Snapshot()), pageWidth)
    {
      if specialEnemy.None? {
        return;
      }
      var e := specialEnemy.value;
      var left := e.rect.x;
      specialEnemy := Some(e.(rect := e.rect.(x := left + SpecialEnemySpeed)));
      if left > pageWidth {
        RemoveSpecialEnemy();
      }
    }

    method RemoveSpecialEnemy()
      modifies this
      ensures Snapshot() == GameRules.RemoveSpecialEnemy(old(Snapshot()))
    {
      if specialEnemy.None? {
        return;
      }
      specialEnemy := None;
    }

    method RemoveProjectile()
      modifies this
      ensures Snapshot() == GameRules.RemoveProjectile(old(Snapshot()))
    {
      if playerProjectile.None? {
        return;
      }
      playerProjectile := None;
    }

    /** Key-down: arrows start movement, Space fires when no shot is in flight. */
    method KeyDown(key: Key, layout: Layout)
      modifies this
      ensures Snapshot() == GameRules.KeyDown(old(Snapshot()), layout, key)
    {
      match key
      case Left => isMovingLeft := true;
      case Right => isMovingRight := true;
      case Space =>
        if playerProjectile.None? {
          ShootPlayerProjectile(layout);
        }
      case _ =>
    }

    /** Key-up: Left or A, Right or D, stop movement. */
    method KeyUp(key: Key)
      modifies this
      ensures Snapshot() == GameRules.KeyUp(old(Snapshot()), key)
    {
      match key
      case Left | A => isMovingLeft := false;
      case Right | D => isMovingRight := false;
      case _ =>
    }

    /** Puts a new shot just above the middle of the ship. */
    method ShootPlayerProjectile(layout: Layout)
      modifies this
      ensures Snapshot() == GameRules.ShootPlayerProjectile(old(Snapshot()), layout)
    {
      var shipLeft := playerLeft;
      var shipTop := layout.shipTop;
      playerProjectile := Some(Rect(shipLeft + layout.shipWidth / 2.0 - 2.5, shipTop - 15.0, ProjectileWidth, ProjectileHeight));
    }
  }
}
