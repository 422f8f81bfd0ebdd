/**
  The game page's state as a value, and one function per operation of the
  page: the reference definitions that the page's methods are proved
  against.
 */
module GameRules {
  import opened Geometry

  datatype Option<T> = None | Some(value: T)

  /** A rectangle on the canvas with its Tag, the points it is worth. */
  datatype Enemy = Enemy(rect: Rect, tag: int)

  /** The keys the handlers tell apart; every other key is Other. */
  datatype Key = Left | Right | Space | A | D | Other

  /**
    Sizes the page reads from the host each time it needs them: the game
    canvas width (player movement), the page width (enemy grid and special
    enemy), the player ship's width and its top.
   */
  datatype Layout = Layout(canvasWidth: real, pageWidth: real, shipWidth: real, shipTop: real)

  /** The page's game state: everything a tick or a key press can change. */
  datatype State = State(
    playerLeft: real,
    isMovingLeft: bool,
    isMovingRight: bool,
    playerProjectile: Option<Rect>,
    enemies: seq<Enemy>,
    specialEnemy: Option<Enemy>,
    score: int)

  /** Timer callbacks and key events, in the order the host delivers them. */
  datatype Event = GameLoopTick | SpecialEnemyTimerTick | KeyPressed(key: Key) | KeyReleased(key: Key)

  const PlayerSpeed: real := 8.0
  const ProjectileSpeed: real := 10.0
  const ProjectileWidth: real := 5.0
  const ProjectileHeight: real := 15.0
  const SpecialEnemySpeed: real := 3.0
  const SpecialEnemyWidth: real := 40.0
  const SpecialEnemyHeight: real := 20.0
  const SpecialEnemyTop: real := 40.0
  const SpecialTag: int := 200
  const EnemyRows: nat := 4
  const EnemyCols: nat := 8
  const EnemyWidth: real := 30.0
  const EnemyHeight: real := 20.0
  const EnemySpacing: real := 10.0
  const GridTop: real := 70.0
  const GridWidth: real := EnemyCols as real * EnemyWidth + (EnemyCols - 1) as real * EnemySpacing

  /** Sum of the tags of a list of enemies. */
  function TagSum(es: seq<Enemy>): int
  {
    if es == [] then 0 else TagSum(es[..|es| - 1]) + es[|es| - 1].tag
  }

  /** List.RemoveAt: the element at i leaves, the later ones shift down by one. */
  function RemoveAt<T>(s: seq<T>, i: nat): (r: seq<T>)
    requires i < |s|
    ensures |r| == |s| - 1
    ensures forall j :: 0 <= j < i ==> r[j] == s[j]
    ensures forall j :: i <= j < |r| ==> r[j] == s[j + 1]
  {
    s[..i] + s[i + 1..]
  }

  // ---------------------------------------------------------------- player

  /**
    One tick of player movement. Both guards read the position from before
    the tick, and the rightward move is written last, so it wins.
   */
  function MovePlayer(left: real, movingLeft: bool, movingRight: bool, layout: Layout): (r: real)
    ensures r > left <==> movingRight && left + layout.shipWidth < layout.canvasWidth
    ensures r < left <==> movingLeft && left > 0.0 && !(movingRight && left + layout.shipWidth < layout.canvasWidth)
    ensures r == left || r == left - PlayerSpeed || r == left + PlayerSpeed
  {
    var afterLeft := if movingLeft && left > 0.0 then left - PlayerSpeed else left;
    if movingRight && left + layout.shipWidth < layout.canvasWidth then left + PlayerSpeed else afterLeft
  }

  /** Where a new shot appears: centred on the ship, just above it. */
  function ShotFrom(shipLeft: real, layout: Layout): (r: Rect)
    ensures HasArea(r)
    ensures r.width == ProjectileWidth && r.height == ProjectileHeight
    ensures r.x + r.width / 2.0 == shipLeft + layout.shipWidth / 2.0
    ensures r.y + r.height == layout.shipTop
  {
    Rect(shipLeft + layout.shipWidth / 2.0 - 2.5, layout.shipTop - 15.0, ProjectileWidth, ProjectileHeight)
  }

  /** ShootPlayerProjectile: a new shot replaces whatever was there. */
  function ShootPlayerProjectile(s: State, layout: Layout): (r: State)
    ensures r.playerProjectile == Some(ShotFrom(s.playerLeft, layout))
    ensures r.(playerProjectile := s.playerProjectile) == s
  {
    s.(playerProjectile := Some(ShotFrom(s.playerLeft, layout)))
  }

  /** The key-down handler: arrows set the flags, Space fires only when no shot is in flight. */
  function KeyDown(s: State, layout: Layout, key: Key): (r: State)
    ensures r.isMovingLeft == (s.isMovingLeft || key == Left)
    ensures r.isMovingRight == (s.isMovingRight || key == Right)
    ensures r.playerProjectile ==
      if key == Space && s.playerProjectile.None? then Some(ShotFrom(s.playerLeft, layout)) else s.playerProjectile
    ensures r.playerLeft == s.playerLeft && r.enemies == s.enemies
    ensures r.specialEnemy == s.specialEnemy && r.score == s.score
  {
    match key
    case Left => s.(isMovingLeft := true)
    case Right => s.(isMovingRight := true)
    case Space => if s.playerProjectile == None then ShootPlayerProjectile(s, layout) else s
    case _ => s
  }

  /** The key-up handler: Left or A clears the left flag, Right or D the right flag. */
  function KeyUp(s: State, key: Key): (r: State)
    ensures r.isMovingLeft == (s.isMovingLeft && key != Left && key != A)
    ensures r.isMovingRight == (s.isMovingRight && key != Right && key != D)
    ensures r.(isMovingLeft := s.isMovingLeft, isMovingRight := s.isMovingRight) == s
  {
    match key
    case Left | A => s.(isMovingLeft := false)
    case Right | D => s.(isMovingRight := false)
    case _ => s
  }

  // ----------------------------------------------------------- projectile

  /** The shot one step higher up. */
  function MovedUp(shot: Rect): Rect
  {
    shot.(y := shot.y - ProjectileSpeed)
  }

  function RemoveProjectile(s: State): (r: State)
    ensures r.playerProjectile.None?
    ensures r.(playerProjectile := s.playerProjectile) == s
  {
    s.(playerProjectile := None)
  }

  /**
    The highest index whose enemy overlaps the shot: the first hit of a scan
    that runs from the end of the list towards its start.
   */
  function LastHit(shot: Rect, es: seq<Enemy>): (r: Option<nat>)
    ensures r.Some? ==> r.value < |es| && CheckCollision(shot, es[r.value].rect)
    ensures r.Some? ==> forall j :: r.value < j < |es| ==> !CheckCollision(shot, es[j].rect)
    ensures r.None? <==> forall j :: 0 <= j < |es| ==> !CheckCollision(shot, es[j].rect)
  {
    if es == [] then None
    else if CheckCollision(shot, es[|es| - 1].rect) then Some(|es| - 1)
    else LastHit(shot, es[..|es| - 1])
  }

  /**
    HandleProjectile. Every test uses the shot's top from before its upward
    move: off the top, the shot is removed; otherwise the last overlapping
    grid enemy dies; otherwise the special enemy is tried; a shot that hit
    nothing survives ten units higher.
   */
  function HandleProjectile(s: State): (r: State)
    ensures s.playerProjectile.None? ==> r == s
    ensures r.playerLeft == s.playerLeft
    ensures r.isMovingLeft == s.isMovingLeft && r.isMovingRight == s.isMovingRight
    ensures r.playerProjectile.Some? ==>
      s.playerProjectile.Some? && s.playerProjectile.value.y >= 0.0 &&
      r.playerProjectile.value == MovedUp(s.playerProjectile.value)
    ensures r.specialEnemy == s.specialEnemy || r.specialEnemy.None?
  {
    match s.playerProjectile
    case None => s
    case Some(shot) =>
      if shot.y < 0.0 then RemoveProjectile(s)
      else
        match LastHit(shot, s.enemies)
        case Some(i) =>
          RemoveProjectile(s.(score := s.score + s.enemies[i].tag, enemies := RemoveAt(s.enemies, i)))
        case None =>
          if s.specialEnemy.Some? && CheckCollision(shot, s.specialEnemy.value.rect) then
            RemoveProjectile(RemoveSpecialEnemy(s.(score := s.score + s.specialEnemy.value.tag)))
          else
            s.(playerProjectile := Some(MovedUp(shot)))
  }

  // -------------------------------------------------------- special enemy

  /** A fresh special enemy, just off the left edge of the page. */
  function NewSpecialEnemy(): (e: Enemy)
    ensures HasArea(e.rect) && e.tag == SpecialTag
    ensures e.rect.x + e.rect.width == 0.0
  {
    Enemy(Rect(-SpecialEnemyWidth, SpecialEnemyTop, SpecialEnemyWidth, SpecialEnemyHeight), SpecialTag)
  }

  /** CreateSpecialEnemy: does nothing while one already exists. */
  function CreateSpecialEnemy(s: State): (r: State)
    ensures r.specialEnemy.Some?
    ensures s.specialEnemy.Some? ==> r == s
    ensures s.specialEnemy.None? ==> r == s.(specialEnemy := Some(NewSpecialEnemy()))
  {
    if s.specialEnemy.Some? then s else s.(specialEnemy := Some(NewSpecialEnemy()))
  }

  /** The special enemy one step further right. */
  function Shifted(e: Enemy): Enemy
  {
    e.(rect := e.rect.(x := e.rect.x + SpecialEnemySpeed))
  }

  /** MoveSpecialEnemy: the left edge before the move decides whether it leaves. */
  function MoveSpecialEnemy(s: State, pageWidth: real): (r: State)
    ensures r.(specialEnemy := s.specialEnemy) == s
    ensures r.specialEnemy.Some? <==> s.specialEnemy.Some? && s.specialEnemy.value.rect.x <= pageWidth
    ensures r.specialEnemy.Some? ==> r.specialEnemy.value == Shifted(s.specialEnemy.value)
  {
    match s.specialEnemy
    case None => s
    case Some(e) =>
      if e.rect.x > pageWidth then RemoveSpecialEnemy(s.(specialEnemy := Some(Shifted(e))))
      else s.(specialEnemy := Some(Shifted(e)))
  }

  function RemoveSpecialEnemy(s: State): (r: State)
    ensures r.specialEnemy.None?
    ensures r.(specialEnemy := s.specialEnemy) == s
  {
    s.(specialEnemy := None)
  }

  // ------------------------------------------------------------ enemy grid

  /** Left edge of the grid, chosen so that the grid is centred on the page. */
  function StartX(pageWidth: real): real
  {
    (pageWidth - GridWidth) / 2.0
  }

  /** Points by row: the top row is worth most. */
  function RowPoints(row: nat): int
  {
    if row == 0 then 40 else if row < 3 then 20 else 10
  }

  /** The enemy that CreateEnemies places at (row, col). */
  function GridEnemy(startX: real, row: nat, col: nat): Enemy
  {
    Enemy(Rect(startX + col as real * (EnemyWidth + EnemySpacing),
               GridTop + row as real * (EnemyHeight + EnemySpacing),
               EnemyWidth, EnemyHeight),
          RowPoints(row))
  }

  /** The whole grid in row-major order. */
  function Grid(pageWidth: real): (g: seq<Enemy>)
    ensures |g| == EnemyRows * EnemyCols
    ensures forall k :: 0 <= k < |g| ==> HasArea(g[k].rect) && g[k].tag > 0
  {
    seq(EnemyRows * EnemyCols, k requires 0 <= k < EnemyRows * EnemyCols =>
      GridEnemy(StartX(pageWidth), k / EnemyCols, k % EnemyCols))
  }

  /** CreateEnemies: appends the grid to whatever enemies exist. */
  function CreateEnemies(s: State, pageWidth: real): (r: State)
    ensures |r.enemies| == |s.enemies| + EnemyRows * EnemyCols
    ensures r.enemies[..|s.enemies|] == s.enemies
    ensures r.(enemies := s.enemies) == s
  {
    s.(enemies := s.enemies + Grid(pageWidth))
  }

  // ----------------------------------------------------------------- ticks

  /** GameLoop: move the player, then handle the shot, then move the special enemy. */
  function Tick(s: State, layout: Layout): (r: State)
    ensures r.isMovingLeft == s.isMovingLeft && r.isMovingRight == s.isMovingRight
    ensures r.playerLeft == MovePlayer(s.playerLeft, s.isMovingLeft, s.isMovingRight, layout)
    ensures r.playerProjectile.Some? ==>
      s.playerProjectile.Some? && s.playerProjectile.value.y >= 0.0 &&
      r.playerProjectile.value == MovedUp(s.playerProjectile.value)
    ensures r.specialEnemy.Some? ==>
      s.specialEnemy.Some? && s.specialEnemy.value.rect.x <= layout.pageWidth &&
      r.specialEnemy.value == Shifted(s.specialEnemy.value)
  {
    var moved := s.(playerLeft := MovePlayer(s.playerLeft, s.isMovingLeft, s.isMovingRight, layout));
    MoveSpecialEnemy(HandleProjectile(moved), layout.pageWidth)
  }

  /** n ticks with no other event in between. */
  function Ticks(s: State, layout: Layout, n: nat): State
    decreases n
  {
    if n == 0 then s else Ticks(Tick(s, layout), layout, n - 1)
  }

  /**
    One event. Only the game loop timer resolves hits: the special enemy
    timer and the keys never change the score or the enemy list, and the
    keys never touch the special enemy.
   */
  function Step(s: State, layout: Layout, ev: Event): (r: State)
    ensures !ev.GameLoopTick? ==> r.score == s.score && r.enemies == s.enemies
    ensures (ev.KeyPressed? || ev.KeyReleased?) ==> r.specialEnemy == s.specialEnemy
  {
    match ev
    case GameLoopTick => Tick(s, layout)
    case SpecialEnemyTimerTick => CreateSpecialEnemy(s)
    case KeyPressed(k) => KeyDown(s, layout, k)
    case KeyReleased(k) => KeyUp(s, k)
  }

  /** The state after a sequence of events. */
  function Run(s: State, layout: Layout, evs: seq<Event>): (r: State)
    ensures (forall i :: 0 <= i < |evs| ==> !evs[i].GameLoopTick?) ==>
      r.score == s.score && r.enemies == s.enemies
    decreases evs
  {
    if evs == [] then s else Run(Step(s, layout, evs[0]), layout, evs[1..])
  }
}
