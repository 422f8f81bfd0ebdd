# Space Invaders game page, modelled in Dafny

This project models the game logic of the Space Invaders page
(`SpaceInvaders2/Presentation/MainPage.xaml.cs`). The page is a small,
single-threaded state machine. Timer callbacks and key handlers update a
few fields in place:

- the player ship's left edge;
- the two held-arrow flags;
- at most one player shot;
- an ordered list of enemies, each worth its `Tag` in points;
- at most one special enemy;
- the score.

The project has four modules:

- `Geometry` (`geometry.dfy`) holds rectangles and the page's overlap test, `CheckCollision`.
- `GameRules` (`rules.dfy`) holds the page's state as a value, `State`. It has one function
  per operation of the page. These functions are the reference definitions. It also defines
  `Run`, which folds a sequence of timer and key events over a state.
- `GameProperties` (`properties.dfy`) holds the lemmas. They say which enemy a shot kills and
  what it is worth, where the grid goes, when shots and special enemies leave, and what stays
  true over any run of events.
- `SpaceInvaders` (`main_page.dfy`) holds the class `MainPage`. Its fields are the page's game
  state: the source's fields, plus `playerLeft`, which the source does not store itself but
  reads and writes as the ship's position on the canvas (`Canvas.GetLeft(PlayerShip)`). Its
  methods are the source's methods, with the source's loops. Every method
  proves `Snapshot() == GameRules.X(old(Snapshot()))`: the new state is the one the reference
  function computes from the old state.

Positions are exact `real`s. The sizes the page reads from its host go in a `Layout`
parameter:

- the game canvas width, used by player movement;
- the page width, used by the enemy grid and the special enemy (the source reads a
  different width in each place, and the model keeps both);
- the ship's width and top.

Timer ticks and key presses are explicit calls, or `Event`s in `Run`.

The model follows the code as written, in four places where a reader might expect otherwise:

- The enemy scan runs from the last index down. A shot that overlaps several enemies kills
  the one with the highest index.
- The shot's off-screen test and its collision tests use its top from before the 10-unit
  upward move.
- The special enemy leaves when its left edge from before the move is past the page width.
- When both arrows are held and both guards pass, the rightward move is written last, so
  the ship ends at `left + 8`.

The special enemy is always worth 200 points. There are no lives, shields, enemy fire, grid
movement or waves in this page.

## Model

| member | source | states |
|---|---|---|
| Geometry.CheckCollision | SpaceInvaders2/Presentation/MainPage.xaml.cs:223-229 | the page's overlap test: it can only hold when the two rectangles together span a positive width and height, and two rectangles with an area that share their top-left corner always collide |
| Geometry.CheckCollisionSymmetric | SpaceInvaders2/Presentation/MainPage.xaml.cs:223-229 | the overlap test gives the same answer with its arguments swapped |
| Geometry.TouchingEdgesDoNotCollide | SpaceInvaders2/Presentation/MainPage.xaml.cs:223-229 | rectangles that only share an edge do not collide, because all four comparisons are strict |
| Geometry.CheckCollisionExamples | SpaceInvaders2/Presentation/MainPage.xaml.cs:223-229 | 5x5 squares at x=0 and x=5 do not collide; at x=0 and x=4 they do |
| Geometry.CheckCollisionIffSharedInterior | SpaceInvaders2/Presentation/MainPage.xaml.cs:223-229 | for rectangles with positive size, the four comparisons hold exactly when the open interiors share a point |
| GameRules.RemoveAt | SpaceInvaders2/Presentation/MainPage.xaml.cs:147 | List.RemoveAt: one element fewer, earlier elements in place, later elements shifted down by one |
| GameRules.MovePlayer | SpaceInvaders2/Presentation/MainPage.xaml.cs:48-56 | the ship moves right exactly when the right flag is held and its right edge is inside the canvas; it moves left only when the left flag is held, left > 0 and the right move does not apply; every move is exactly 8 |
| GameRules.ShotFrom | SpaceInvaders2/Presentation/MainPage.xaml.cs:257-266 | a new 5x15 shot is centred on the ship horizontally and its bottom edge is at the ship's top |
| GameRules.ShootPlayerProjectile | SpaceInvaders2/Presentation/MainPage.xaml.cs:255-268 | the shot becomes the new one above the ship; nothing else changes |
| GameRules.KeyDown | SpaceInvaders2/Presentation/MainPage.xaml.cs:230-244 | key-down sets the left flag only for Left and the right flag only for Right; Space creates a shot only when none exists; nothing else changes |
| GameRules.KeyUp | SpaceInvaders2/Presentation/MainPage.xaml.cs:246-253 | key-up clears the left flag for Left or A and the right flag for Right or D; nothing else changes |
| GameRules.RemoveProjectile | SpaceInvaders2/Presentation/MainPage.xaml.cs:216-221 | afterwards there is no shot; nothing else changes |
| GameRules.LastHit | SpaceInvaders2/Presentation/MainPage.xaml.cs:136-141 | the index found by the backward scan overlaps the shot and no later index does; there is none exactly when no enemy overlaps |
| GameRules.HandleProjectile | SpaceInvaders2/Presentation/MainPage.xaml.cs:121-164 | with no shot nothing changes; the ship and the movement flags never change; a surviving shot had a top >= 0 and is now 10 higher; the special enemy is either untouched or gone |
| GameProperties.HandleProjectileScoresWhatItKills | SpaceInvaders2/Presentation/MainPage.xaml.cs:134-163 | either the enemies are unchanged or exactly one left and the score rose by its tag with the special enemy untouched; with the enemies unchanged, either nothing was scored or the special enemy went and its tag was added |
| GameRules.NewSpecialEnemy | SpaceInvaders2/Presentation/MainPage.xaml.cs:176-185 | a new special enemy has positive size, is worth 200 and starts with its right edge at x = 0 |
| GameProperties.NewSpecialEnemyGeometry | SpaceInvaders2/Presentation/MainPage.xaml.cs:176-185 | a new special enemy is exactly the 40x20 rectangle with left -40 and top 40, worth 200 |
| GameRules.CreateSpecialEnemy | SpaceInvaders2/Presentation/MainPage.xaml.cs:173-187 | afterwards a special enemy exists; an existing one is kept unchanged, so there is never more than one |
| GameRules.MoveSpecialEnemy | SpaceInvaders2/Presentation/MainPage.xaml.cs:189-200 | the special enemy survives exactly when its left edge before the move is at most the page width; a survivor is 3 further right; nothing else changes |
| GameRules.RemoveSpecialEnemy | SpaceInvaders2/Presentation/MainPage.xaml.cs:202-207 | afterwards there is no special enemy; nothing else changes |
| GameRules.Grid | SpaceInvaders2/Presentation/MainPage.xaml.cs:75-119 | the grid has 4 x 8 enemies, each with positive size and a positive tag |
| GameRules.CreateEnemies | SpaceInvaders2/Presentation/MainPage.xaml.cs:73-120 | the enemy list grows by 32 and keeps its old enemies as a prefix; nothing else changes |
| GameRules.Tick | SpaceInvaders2/Presentation/MainPage.xaml.cs:45-60 | the flags stay; the ship moves as MovePlayer says; a shot left after the tick had a top >= 0 and is 10 higher; a special enemy left after the tick was at most at the page width and is 3 further right |
| GameRules.Step | SpaceInvaders2/Presentation/MainPage.xaml.cs:37-41 | one timer callback or key event, dispatched to its handler; only the game loop tick changes the score or the enemy list, and key events never touch the special enemy |
| GameRules.Run | SpaceInvaders2/Presentation/MainPage.xaml.cs:164-170 | a sequence of events applied in order; a sequence with no game loop tick leaves the score and the enemy list as they were |
| GameProperties.TagSumRemoveAt | SpaceInvaders2/Presentation/MainPage.xaml.cs:143-147 | removing one enemy takes exactly its points out of the points left on the grid |
| GameProperties.RemoveAtMultiset | SpaceInvaders2/Presentation/MainPage.xaml.cs:147 | removing one enemy keeps every other enemy, once each |
| GameProperties.HitKillsLastOverlappingEnemy | SpaceInvaders2/Presentation/MainPage.xaml.cs:134-150 | a shot that overlaps enemy j kills exactly one enemy: the highest-indexed overlapping one, at or after j. The score rises by its tag, the shot is gone, the other enemies keep their order, and the special enemy and the ship are untouched |
| GameProperties.SpecialHitOnlyWhenGridMissed | SpaceInvaders2/Presentation/MainPage.xaml.cs:153-163 | when no grid enemy overlaps and the special enemy does, the special enemy and the shot are removed and its tag is added; nothing else changes |
| GameProperties.MissMovesShotUp | SpaceInvaders2/Presentation/MainPage.xaml.cs:125-126 | a shot that overlaps nothing survives 10 higher; nothing else changes |
| GameProperties.OffscreenShotIsRemoved | SpaceInvaders2/Presentation/MainPage.xaml.cs:125-132 | a shot whose top before the move is < 0 is removed; score and enemies are unchanged |
| GameProperties.ShotLeavesCanvas | SpaceInvaders2/Presentation/MainPage.xaml.cs:121-132 | with no key presses, a shot whose top is below 10 * (n - 1) is gone after n ticks |
| GameProperties.SpaceWhileShotInFlightIsIgnored | SpaceInvaders2/Presentation/MainPage.xaml.cs:236-241 | Space while a shot is in flight changes nothing |
| GameProperties.SpaceTwiceIsSpaceOnce | SpaceInvaders2/Presentation/MainPage.xaml.cs:236-241 | two Space presses in a row have the effect of one |
| GameProperties.FireAfterShotIsGone | SpaceInvaders2/Presentation/MainPage.xaml.cs:236-241 | once the shot is removed, Space fires a 5x15 shot at shipLeft + shipWidth/2 - 2.5, shipTop - 15 |
| GameProperties.BothArrowsHeldMovesRight | SpaceInvaders2/Presentation/MainPage.xaml.cs:48-56 | with both flags held and both guards passing, the ship ends at left + 8 |
| GameProperties.RemovalsAreIdempotent | SpaceInvaders2/Presentation/MainPage.xaml.cs:202-221 | removing the special enemy or the shot twice has the effect of removing it once |
| GameProperties.SpecialEnemyLeavesPage | SpaceInvaders2/Presentation/MainPage.xaml.cs:189-200 | with no spawns, a special enemy whose left edge is beyond pageWidth - 3 * (n - 1) is gone after n ticks |
| GameProperties.NewSpecialEnemyLeavesAfter | SpaceInvaders2/Presentation/MainPage.xaml.cs:173-200 | a newly spawned special enemy is gone after n ticks once 3 * (n - 1) exceeds the page width plus 40 |
| GameProperties.GridAt | SpaceInvaders2/Presentation/MainPage.xaml.cs:84-117 | the enemy at row-major position row * 8 + col is 30x20, sits at startX + 40 * col, 70 + 30 * row and is worth its row's points (40, 20, 20, 10) |
| GameProperties.GridPoints | SpaceInvaders2/Presentation/MainPage.xaml.cs:94-108 | the 32 grid enemies are worth 720 points together |
| GameProperties.GridEnemiesDoNotOverlap | SpaceInvaders2/Presentation/MainPage.xaml.cs:77-111 | no two grid enemies overlap |
| GameProperties.GridIsCentred | SpaceInvaders2/Presentation/MainPage.xaml.cs:81-82 | startX = (width - 310) / 2 leaves equal margins left and right; on a page at least 310 wide every enemy lies inside the page |
| GameProperties.HandleProjectileLedger | SpaceInvaders2/Presentation/MainPage.xaml.cs:121-164 | resolving a shot changes score + grid points by 0 or by the special enemy's 200, and keeps every special enemy worth 200 |
| GameProperties.StepLedger | SpaceInvaders2/Presentation/MainPage.xaml.cs:121-187 | one event changes score + grid points by 0, or by 200 when the special enemy is shot; every special enemy stays worth 200 |
| GameProperties.RunLedger | SpaceInvaders2/Presentation/MainPage.xaml.cs:45-268 | over any run of events, score + grid points rises by a non-negative multiple of 200 |
| GameProperties.HandleProjectileKeepsScoreAndEnemies | SpaceInvaders2/Presentation/MainPage.xaml.cs:121-164 | with non-negative tags, resolving a shot never lowers the score and only removes enemies |
| GameProperties.StepKeepsScoreAndEnemies | SpaceInvaders2/Presentation/MainPage.xaml.cs:45-268 | no event lowers the score or adds an enemy, and tags stay non-negative |
| GameProperties.RunKeepsScoreAndEnemies | SpaceInvaders2/Presentation/MainPage.xaml.cs:45-268 | over any run the score never decreases, and every enemy at the end was there at the start |
| GameProperties.RunKeepsPlayerNearCanvas | SpaceInvaders2/Presentation/MainPage.xaml.cs:48-56 | over any run the ship's left edge stays within one 8-unit step of the canvas: -8 < left < canvasWidth - shipWidth + 8 |
| GameProperties.LoadedPage | SpaceInvaders2/Presentation/MainPage.xaml.cs:30-43 | the page after loading: the ship where the layout put it, both flags clear, no shot, no special enemy, score 0 and the 32-enemy grid worth 720 points |
| GameProperties.ScoreAccountsForKills | SpaceInvaders2/Presentation/MainPage.xaml.cs:30-43 | after load and any events, the score is the 720 grid points minus those still on the grid, plus a whole number of 200-point special enemy bonuses |
| SpaceInvaders.MainPage.constructor | SpaceInvaders2/Presentation/MainPage.xaml.cs:11-21 | a new page has no shot, no enemies, no special enemy, both flags clear and score 0 |
| SpaceInvaders.MainPage.GameLoop | SpaceInvaders2/Presentation/MainPage.xaml.cs:45-60 | the page ends in Tick of its old state |
| SpaceInvaders.MainPage.CreateEnemies | SpaceInvaders2/Presentation/MainPage.xaml.cs:73-120 | the nested row/column loops append exactly Grid(pageWidth) to the enemy list; nothing else changes |
| SpaceInvaders.MainPage.HandleProjectile | SpaceInvaders2/Presentation/MainPage.xaml.cs:121-164 | the backward scan with in-place removal ends in HandleProjectile of the old state |
| SpaceInvaders.MainPage.CreateSpecialEnemy | SpaceInvaders2/Presentation/MainPage.xaml.cs:173-187 | the page ends in CreateSpecialEnemy of its old state, and a special enemy exists |
| SpaceInvaders.MainPage.MoveSpecialEnemy | SpaceInvaders2/Presentation/MainPage.xaml.cs:189-200 | the page ends in MoveSpecialEnemy of its old state |
| SpaceInvaders.MainPage.RemoveSpecialEnemy | SpaceInvaders2/Presentation/MainPage.xaml.cs:202-207 | the page ends in RemoveSpecialEnemy of its old state |
| SpaceInvaders.MainPage.RemoveProjectile | SpaceInvaders2/Presentation/MainPage.xaml.cs:216-221 | the page ends in RemoveProjectile of its old state |
| SpaceInvaders.MainPage.KeyDown | SpaceInvaders2/Presentation/MainPage.xaml.cs:230-244 | the page ends in KeyDown of its old state |
| SpaceInvaders.MainPage.KeyUp | SpaceInvaders2/Presentation/MainPage.xaml.cs:246-253 | the page ends in KeyUp of its old state |
| SpaceInvaders.MainPage.ShootPlayerProjectile | SpaceInvaders2/Presentation/MainPage.xaml.cs:255-268 | the page ends in ShootPlayerProjectile of its old state |

## Left out

- SpaceInvaders2/Platforms/Desktop/Program.cs is not part of this model. It only starts the host (the X11, framebuffer, macOS and Win32 backends) and has no game logic.
- Rendering is not modelled: fill brushes, adding and removing shapes in `GameCanvas.Children`, the score `TextBlock` (`CreateScoreText`, `UpdateScore` and its "PONTOS" text), and `e.Handled`. The model keeps the canvas as the page's own fields.
- Timers are not modelled: the `DispatcherTimer` set-up (`SetupSpecialEnemyTimer`), the 16 ms and 15 s intervals, and the `async` `OnPageLoaded` with its delay and focus call. Each timer callback is an explicit call or `Event`. The load sequence is `GameProperties.LoadedPage`: the constructor's state, then `CreateEnemies`.
- Doubles are exact `real`s in the model. The source's values are small multiples of 0.5, except for page-dependent ones such as `(width - 310) / 2`, where floating-point rounding is not modelled.
- The score is an unbounded integer. The source's 32-bit `int` would only overflow after billions of points.
- The host's `Rect` rejects negative sizes. This is not modelled: every rectangle the page builds has a positive size.
- The canvas height is never read by this page's logic, so `Layout` does not carry it.
- In `Run` and `Ticks`, one `Layout` holds for the whole sequence. A window resize between events is captured only by the class methods, which take the layout on every call.
