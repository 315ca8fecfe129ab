# Two-player space tower defence: a verified model of the simulation layer

This project models, in Dafny, the game-simulation core of a browser tower
defence game written in TypeScript. In the game one or two players fly ships
over a 1920 × 1080 world, buy towers with a starting currency of 500 and
defend against rounds of enemies that walk a fixed path. Two players share a
game over a peer-to-peer data connection.

The model covers these parts:

- **Enemies** (`enemies.dfy`, module `Enemies`, from `src/enemies.ts`):
  - the enemy kinds, the three round configurations and the six-waypoint path;
  - the `Enemy` record with its damage rule and its wire form;
  - `EnemyManager`, the round scheduler: start, spawn ticks, the per-frame
    update with lives and round end, the resets, and the guest's reconciliation
    of a host snapshot.
- **Towers** (`towers.dfy`, module `Towers`, from `src/towers.ts`):
  - the tower table and costs;
  - nearest-target search and cooldown-gated firing;
  - the backward projectile loop that moves, hits and removes projectiles;
  - placement validity, `placeTower` and the unchecked `addRemoteTower`.
- **Network** (`network.dfy`, module `Network`, from `src/network.ts`):
  - the outbound queue, drained in order when the connection opens;
  - the type-tagged receive dispatch with its position filter;
  - the host's roster: a join appends, a close removes;
  - the host-only `startGame` and the message builders.
- **Players** (`players.dfy`, module `Players`, from `src/players.ts`): the
  remote-player proxy. It has a target, a displayed position that eases toward
  it, a validity latch and partial stats updates.
- **Map grid** (`map.dfy`, module `MapGrid`, from `src/map.ts`):
  - the integer cell-size arithmetic, including the Infinity and NaN outcomes
    for tiny canvases;
  - the tile grid as a two-dimensional array, the path row and tower tiles
    marked on it, and the overlay toggle.
- **Utilities** (`utils.dfy`, module `Utils`, from `src/utils.ts`): `clamp`,
  `lerp`, and the memo cache behind `loadBackground`.
- **Session glue** (`session.dfy`, module `Session`, from `src/main.ts`):
  - `keepInBounds` and `interpolatePosition`;
  - the shot cooldown, the bullet filter, and the tower menu and placement
    clicks with their currency rules;
  - the game-over and Play Again transitions;
  - the network callbacks the game registers;
  - the simulation part of a rendered frame.

Code that changes state in place is modelled as classes whose methods state
their whole new state: `EnemyManager`, `TowerManager`, `NetworkManager`,
`Player`, `TileMap`, `BackgroundCache` and `Game`. Their loops are proved
against specification functions, such as `Survivors`, `Nearest`, `Remaining`
and `Damaged`. The properties the game relies on are proved about those
functions as lemmas.

Several things are turned into explicit inputs:

- Timers become explicit steps. A firing of the spawn interval is
  `EnemyManager.SpawnTick`, and a rendered frame is `Game.Frame`.
- Clock readings are parameters.
- Random ids and the random enemy-type index are parameters.
- Projectile and bullet velocities are parameters, because they come from
  trigonometry. Towers take an aiming function.
- The PeerJS transport becomes three things:
  - a connection field holding the remote peer id;
  - an `isConnected` flag;
  - a log `sent` of everything handed to the connection.
- Callback invocations are returned as `Event` values.

JavaScript numbers are modelled as mathematical reals. Canvas sizes are
natural numbers with floor division.

### Behaviour worth knowing

What the code does, as the model follows it:

- Enemy health is not kept within `[0, maxHealth]`. `takeDamage` clamps only at
  0 (src/enemies.ts:39-41). Projectile hits subtract directly, so health can go
  negative (src/towers.ts:113, `Towers.OverkillGoesNegative`).
- The guest also runs the round scheduler. On `round_start` it calls
  `startRound`, which starts its own spawn timer (src/main.ts:624-627,
  src/enemies.ts:152). It also calls `enemyManager.update()` every frame
  (src/main.ts:847).
- A tower's cooldown is always 1000 ms, whatever its `attackSpeed`
  (src/towers.ts:177, 265).
- `TowerManager.update` reads its own clock (src/towers.ts:73), so the timestamp
  passed at src/main.ts:811 is ignored. The model takes the clock reading as
  `now`.
- The two validity checks on positions differ:
  - the network delivers a position only when both coordinates are non-zero
    (src/network.ts:202);
  - the player proxy latches validity when either coordinate is non-zero
    (src/players.ts:36).

  `Session.FilterStricterThanLatch` states both facts.
- `Player.update` (the 0.2 easing) is never called by the game. The render step
  instead eases the remote ship by 0.1 (src/main.ts:952-955). Both are modelled:
  `Players.Player.Update` and `Session.Game.EaseRemote`.
- Remote bullets are added whether or not a game is running (src/main.ts:597-607).
- Every frame drawn on the game screen with no round active installs one more
  Start Round click listener (src/main.ts:871, 914-923). None is ever removed,
  and they check no screen, so they keep firing after the game ends. Each
  listener converts a click to world coordinates with the scale of the frame
  that installed it (src/main.ts:789, 915-918), so after the window height
  changes an old listener's button no longer lies where it was drawn
  (`Session.StartButtonKeepsInstallScale`). The button of a listener
  installed at the current scale overlaps the game-over screen's Main Menu
  button: a click at world heights 660 to 690 returns to the menu and also
  starts a round (`Session.StartButtonOverlapsMainMenu`,
  `Session.Game.StartRoundClick`).
- A tower placement is sent even in single-player mode. With no connection it
  waits in the message queue (src/main.ts:1418).

## Model

| member | source | states |
|---|---|---|
| Utils.Clamp | src/utils.ts:5-7 | with lo <= hi the result lies in [lo, hi]; a value already in range is returned unchanged; with hi < lo the result is hi |
| Utils.ClampIdempotent | src/utils.ts:5-7 | clamping a clamped value changes nothing |
| Utils.Lerp | src/utils.ts:9-11 | factor 0 gives the start, factor 1 gives the end, and the value is start plus the factor times the distance |
| Utils.LerpBetween | src/utils.ts:9-11 | with a factor in [0, 1] the interpolated value lies between the two end points |
| Utils.BackgroundCache.constructor | src/utils.ts:31 | the cache starts empty with no load started |
| Utils.BackgroundCache.LoadBackground | src/utils.ts:37-51 | a name already requested gets its stored entry back and nothing changes; a new name stores and returns the new load; the invariant keeps at most one load per name |
| Enemies.Config | src/enemies.ts:56-78 | every enemy kind has positive health and positive speed |
| Enemies.NewEnemy | src/enemies.ts:24-37 | an empty id is replaced by the random id; health and maxHealth are the kind's health, speed is the kind's speed, progress is 0 |
| Enemies.TakeDamage | src/enemies.ts:39-41 | health never ends negative; a non-negative amount never raises non-negative health; health is health minus amount when that is non-negative, else 0; nothing else changes |
| Enemies.ToNetworkData | src/enemies.ts:43-52 | the wire record carries the enemy's id, kind, position, health and progress |
| Enemies.Snapshot | src/enemies.ts:255 | the snapshot has one wire record per enemy, in list order |
| Enemies.PositionAlongPath | src/enemies.ts:197-221 | progress <= 0 gives the first waypoint and progress >= 1 the last, scaled to world size |
| Enemies.PathAtWaypoint | src/enemies.ts:197-221 | progress k/5 lands exactly on waypoint k |
| Enemies.PathOnSegment | src/enemies.ts:210-220 | inside the path each coordinate lies between the two ends of the segment floor(5p) |
| Enemies.OnSegment | src/enemies.ts:197-221 | on the closed segment k, including its far end, the position is segment k's linear interpolation |
| Enemies.SegmentLipschitz | src/enemies.ts:210-220 | inside one segment the position moves at most 2.5 world widths and 3 world heights per unit of progress |
| Enemies.PathLipschitz | src/enemies.ts:197-221 | the path position is continuous on [0, 1]: between any two progress values it moves at most 2.5 world widths and 3 world heights per unit of progress |
| Enemies.Advance | src/enemies.ts:231-237 | progress grows by speed/1000 and the position is the path point for the new progress; nothing else changes |
| Enemies.SurvivorsSpec | src/enemies.ts:223-246 | every enemy is dropped dead, escapes or survives (the counts add up); survivors are alive, short of the path end, and are exactly the advanced forms of the surviving inputs |
| Enemies.AllEscape | src/enemies.ts:239-243 | when every enemy escapes, each one costs a life and none remains |
| Enemies.AllDead | src/enemies.ts:226-229 | dead enemies are removed without costing a life |
| Enemies.NextRound | src/enemies.ts:166-195 | the round index advances by one and wraps to 0 past the last of the three configurations |
| Enemies.RoundsCycle | src/enemies.ts:166-195 | three round ends return to the same round |
| Enemies.FindById | src/enemies.ts:359-362 | a found enemy is in the list with that id; not found means no enemy has that id |
| Enemies.FindByIdAt | src/enemies.ts:359-362 | with distinct ids the lookup returns exactly the enemy at that position |
| Enemies.Reconcile | src/enemies.ts:357-379 | the result follows the snapshot entry by entry with its ids, positions, health and progress; known ids keep their kind, maxHealth and speed; unknown ids get the snapshot's kind with that kind's maxHealth and speed; ids absent from the snapshot are dropped |
| Enemies.ReconcileIdempotent | src/enemies.ts:357-379 | applying the same snapshot twice equals applying it once |
| Enemies.ReconcileOwnSnapshot | src/enemies.ts:357-379 | syncing the list's own wire snapshot leaves the list unchanged |
| Enemies.EnemyManager.constructor | src/enemies.ts:120-131 | round 0, no enemies, no timer, nothing spawned, 100 lives, no round active |
| Enemies.EnemyManager.SetNetwork | src/enemies.ts:133-136 | records the network link and the host flag |
| Enemies.EnemyManager.StartRound | src/enemies.ts:138-164 | a no-op while a round is active; otherwise the round is active, nothing is spawned yet, the timer runs, and round_start is sent exactly when host with a network |
| Enemies.EnemyManager.SpawnTick | src/enemies.ts:152-163 | with the timer running and fewer than enemyCount spawned, appends exactly one fresh enemy at the first waypoint and counts it; otherwise cancels the timer; the invariant keeps the spawn count within enemyCount |
| Enemies.EnemyManager.Update | src/enemies.ts:223-257 | the new state is `Advanced` from the old list: the list becomes the survivors; lives drop by the number of escapes; the round and timer stop when lives reach 0; a finished round ends and advances; spawn count and network flags stay; the host's snapshot is returned |
| Enemies.EnemyManager.FilterEnemies | src/enemies.ts:225-246 | the filtering loop keeps exactly the survivors, each moved one step, in order; lives drop by one per escape; the round and spawn timer stop once an escape brings lives to 0 or below |
| Enemies.EnemyManager.ResetRound | src/enemies.ts:330-339 | round 0, no enemies, no timer, nothing spawned, no round active; lives untouched |
| Enemies.EnemyManager.ResetLives | src/enemies.ts:326-328 | lives become 100 |
| Enemies.EnemyManager.SyncEnemies | src/enemies.ts:357-379 | the enemy list becomes the reconciliation of the old list with the snapshot |
| Enemies.EnemyManager.GetCurrentRound | src/enemies.ts:310-312 | the 1-based round number, between 1 and 3 |
| Enemies.EnemyManager.GetRoundConfig | src/enemies.ts:322-324 | the configuration of the current round, one of the three |
| Towers.GetTowerCost | src/towers.ts:201-203 | 100 for basic, 200 for sniper, 150 for splash |
| Towers.MakeTower | src/towers.ts:166-178 | a tower with the given id, position and type, that type's stats, level 1, never fired, cooldown 1000 |
| Towers.NearestSpec | src/towers.ts:124-140 | no target exactly when no enemy is in range; otherwise the target is in range, no in-range enemy is closer, and every earlier in-range enemy is strictly farther |
| Towers.FindTarget | src/towers.ts:124-140 | the accumulator loop returns the nearest-in-range index |
| Towers.FireOneSpec | src/towers.ts:76-97 | a tower fires exactly when cooled down with an enemy in range: one projectile from the tower with its damage and the target's id, and the tower records now; otherwise tower and projectiles are unchanged |
| Towers.NewShotsBound | src/towers.ts:76-97 | at most one new projectile per tower per tick |
| Towers.HitIndex | src/towers.ts:106-110 | the first enemy with the projectile's target id within 20 on both axes, or none when no enemy qualifies |
| Towers.HitIndexSameKeys | src/towers.ts:106-110 | the hit test reads only ids and positions, so earlier damage does not change which enemy is hit |
| Towers.ApplyHit | src/towers.ts:112-114 | on a hit only that enemy loses exactly the projectile's damage, unclamped; without a hit nothing changes |
| Towers.Damaged | src/towers.ts:100-121 | damage leaves every enemy's id and position unchanged |
| Towers.DamagedSpec | src/towers.ts:100-121 | non-negative damage never raises health, and an enemy no projectile targets is unchanged |
| Towers.RemainingSpec | src/towers.ts:100-121 | every survivor is the moved form of an input projectile that hit nothing and stayed inside the window, and every such projectile survives |
| Towers.OverkillGoesNegative | src/towers.ts:113 | a 50-damage hit on a 5-health enemy leaves it at -45 |
| Towers.NoTowerNear | src/towers.ts:196-198 | true exactly when no tower is within 40 on both axes |
| Towers.TowerManager.constructor | src/towers.ts:45-70 | no towers, no projectiles, no selection, not placing |
| Towers.TowerManager.Update | src/towers.ts:72-122 | towers fire in order, then the old and new projectiles resolve; the enemies returned carry exactly that tick's damage |
| Towers.TowerManager.FireTowers | src/towers.ts:76-97 | each tower takes its firing turn in order and the new projectiles are appended in tower order |
| Towers.TowerManager.TowerTurn | src/towers.ts:78-96 | one tower's turn replaces that tower by its post-turn state and appends exactly the shot its turn produces (none while cooling down or with no target in range) |
| Towers.TowerManager.ResolveProjectiles | src/towers.ts:100-121 | the backward splice loop leaves exactly the remaining moved projectiles in order and applies every hit |
| Towers.TowerManager.ResolveAt | src/towers.ts:101-120 | one projectile's step applies its hit to the enemies and, in place, either removes it (hit or out of view) or replaces it by its moved self; the rest of the list is untouched |
| Towers.ResolveStep | src/towers.ts:100-121 | one backward step keeps the loop's invariant: the list is the untouched prefix followed by the specification's remaining projectiles, and the enemies carry the specification's damage |
| Towers.TowerManager.IsPlacing | src/towers.ts:142-144 | placing exactly when a tower type is selected |
| Towers.TowerManager.StartTowerPlacement | src/towers.ts:150-153 | the type is selected and placement mode is on |
| Towers.TowerManager.IsValidPlacement | src/towers.ts:193-199 | false exactly when some tower is within 40 on both axes |
| Towers.TowerManager.PlaceTower | src/towers.ts:161-191 | null and no change without a selection or at an invalid spot; otherwise exactly one tower of the selected type is appended and the selection clears |
| Towers.TowerManager.AddRemoteTower | src/towers.ts:251-268 | always appends exactly one tower with the given id, position and type, without any check |
| Network.Dispatch | src/network.ts:185-219 | an event is produced exactly when the message type has a registered callback and, for a position, both coordinates are numbers and non-zero; the event carries the message's payload |
| Network.SentPositionDelivery | src/network.ts:199-204 | a position with both coordinates non-zero reaches a registered callback unchanged; one with a zero coordinate never does |
| Network.UnhandledIgnored | src/network.ts:185-219 | `ship` and unknown message types produce no event |
| Network.RemovePeer | src/network.ts:226 | the filtered roster holds only entries of the roster, none with the closed id, and every other entry |
| Network.RemovePeerAppend | src/network.ts:226 | filtering a roster in two parts filters each part, so the kept entries stay in their order |
| Network.RemovePeerCounts | src/network.ts:226 | every entry of another peer is kept exactly as many times as it occurs; entries of the closed id never |
| Network.RemoveAbsentPeer | src/network.ts:226 | removing an id nobody has leaves the roster unchanged |
| Network.JoinThenClose | src/network.ts:221-229 | a peer that joins and closes leaves the roster as if it had never joined |
| Network.RemovePeerIdempotent | src/network.ts:221-229 | closing the same peer twice is closing it once |
| Network.NetworkManager.constructor | src/network.ts:9-33 | not host, no connection, not connected, empty roster, empty queue, nothing sent, no callbacks |
| Network.NetworkManager.Register | src/network.ts:50-72 | the callback is registered |
| Network.NetworkManager.Initialize | src/network.ts:86-88 | records the host flag and player name |
| Network.NetworkManager.OnHostPeerOpen | src/network.ts:106-112 | the host's roster is exactly one entry with id `host` |
| Network.NetworkManager.ConnectToHost | src/network.ts:115-119 | the guest connects to the host id |
| Network.NetworkManager.AcceptConnection | src/network.ts:124-133 | the incoming peer becomes the connection and the host sends it the roster |
| Network.NetworkManager.SendMessage | src/network.ts:232-239 | sent at once only when connected, otherwise appended to the queue; the sent log plus the queue gain exactly the message, so nothing is dropped |
| Network.NetworkManager.OnOpen | src/network.ts:161-183 | the queue is sent in FIFO order until empty, then player_join; the side becomes connected with the peer's id |
| Network.NetworkManager.OnData | src/network.ts:185-219 | on the host a join appends exactly one roster entry for the peer and sends the roster; a guest ignores joins; every other message goes through Dispatch |
| Network.NetworkManager.OnClose | src/network.ts:221-229 | disconnected; the host removes exactly the entries with the closed peer's id |
| Network.NetworkManager.StartGame | src/network.ts:287-297 | a no-op on a guest; the host posts game_start with the roster and fires the game-start callback |
| Network.NetworkManager.SendPosition | src/network.ts:241-251 | posts a position message with the given fields |
| Network.NetworkManager.SendBullet | src/network.ts:253-258 | posts a bullet message with the given fields |
| Network.NetworkManager.SendTowerPlacement | src/network.ts:260-265 | posts a tower_placement message |
| Network.NetworkManager.SendEnemySync | src/network.ts:267-272 | posts an enemy_sync message with the snapshot |
| Network.NetworkManager.SendRoundStart | src/network.ts:274-278 | posts a round_start message |
| Network.NetworkManager.SendShipUpdate | src/network.ts:280-285 | posts a ship message |
| Players.MergeStats | src/players.ts:54-56 | every supplied field is overwritten and every other field is kept |
| Players.MergeStatsLaws | src/players.ts:54-56 | an empty update changes nothing, and applying an update twice is applying it once |
| Players.Smooth | src/players.ts:41-47 | the remaining distance is scaled by 1 - factor, and a point at its target stays put |
| Players.SmoothApproaches | src/players.ts:41-47 | with a factor in [0, 1] a step lands between the current point and the target and never increases the distance |
| Players.SmoothStepsGap | src/players.ts:41-47 | after n steps the remaining distance is (1 - factor)^n times the first |
| Players.Player.constructor | src/players.ts:8-29 | initial stats 100/100/50/50, no valid position, everything at the origin, ship1 |
| Players.Player.UpdatePosition | src/players.ts:31-39 | the target and angle take the arguments; the latch closes on the first position off the origin and never reopens; x, y untouched |
| Players.Player.Update | src/players.ts:41-47 | nothing until a position is valid; then one 0.2 easing step toward the target |
| Players.Player.UpdateShipType | src/players.ts:49-52 | only the ship type changes |
| Players.Player.UpdateStats | src/players.ts:54-56 | the stats become the merge of the old stats and the update |
| MapGrid.TileCode | src/map.ts:2-6 | the three tile codes are 0, 1 and 2 |
| MapGrid.FitCellSize | src/map.ts:152-158 | the first estimate lies between 50 and the shorter canvas side |
| MapGrid.WholeSide | src/map.ts:160-168 | the refined size lies between the estimate and the side |
| MapGrid.CalculateGridSize | src/map.ts:147-168 | a whole size exactly when both sides are at least 50, then between 50 and the shorter side, every division being by a positive whole number; otherwise NaN for a zero side and Infinity else |
| MapGrid.GetGridDimensions | src/map.ts:134-144 | the column and row counts are floor(side / size), at least 1 each; an infinite size gives 0 × 0; NaN has no dimensions |
| MapGrid.TileMap.constructor | src/map.ts:20-23 | the grid starts empty and hidden |
| MapGrid.TileMap.ToggleGrid | src/map.ts:107-109 | visibility flips, so two toggles restore it |
| MapGrid.TileMap.InitializeMapGrid | src/map.ts:26-29 | a fresh grid of height rows of width EMPTY tiles; NaN dimensions fail and keep the old grid |
| MapGrid.TileMap.CreateEnemyPath | src/map.ts:32-41 | every tile of row 7 up to the column count becomes path and all other tiles are unchanged; fails exactly when row 7 is missing and a column is due |
| MapGrid.TileMap.CreateTowerTiles | src/map.ts:44-55 | only EMPTY tiles in rows 5-9, columns 2 to width-3, become tower tiles, so the path is never overwritten |
| MapGrid.TileMap.MarkTowerWindow | src/map.ts:48-54 | the nested loops mark exactly the empty tiles of the window, failing exactly when a window row is missing |
| MapGrid.TileMap.MarkTowerRow | src/map.ts:49-53 | one row of the window: only its empty tiles become tower tiles |
| MapGrid.TileMap.StartupAsWritten | src/map.ts:57-59 | with the marking run before any canvas exists, the grid built later holds only EMPTY tiles |
| MapGrid.TileMap.Rebuild | src/map.ts:26-59 | build, then path, then tower tiles: with at least ten rows every tile is the intended layout |
| Session.KeepInBounds | src/main.ts:53-61 | x lies in [10, W-10] and y in [10, 1070]; a coordinate already inside is unchanged |
| Session.KeepInBoundsIsClamp | src/main.ts:53-61 | on a world at least one ship wide keepInBounds is clamp on each axis and is idempotent |
| Session.InterpolatePosition | src/main.ts:424-426 | the value is lerp: factor 0 gives the current value and factor 1 the target (the source's default factor 0.2 is not modelled; nothing in the source calls the function) |
| Session.BulletsAfterSpec | src/main.ts:968-988 | every kept bullet is a moved input bullet inside the world, and every moved bullet inside the world is kept |
| Session.BulletsAllLeave | src/main.ts:968-988 | bullets that all move out of the world are all removed |
| Session.OtherPlayer | src/main.ts:560 | the found entry is in the roster with an id other than the given one (the host passes 'host'; a guest passes its connection id, the host's peer id); none means every entry has that id |
| Session.FilterStricterThanLatch | src/network.ts:199-204 | a delivered position always latches the proxy, but a position with exactly one zero coordinate would latch it and is never delivered |
| Session.Game.constructor | src/main.ts:141-166 | main menu, not started, currency 500, no bullets, menu closed, no Start Round listener |
| Session.Game.Shoot | src/main.ts:741-770 | no bullet unless the game is started and 300 ms have passed; otherwise exactly one bullet at the player and the clock is recorded; a two-player game also posts it |
| Session.Game.UpdateBullets | src/main.ts:968-988 | the bullets become the moved bullets still inside the world |
| Session.Game.ToggleTowerMenu | src/main.ts:227-230 | the menu flips |
| Session.Game.PickTower | src/main.ts:243-255 | placement starts and the menu closes only when the currency covers the cost |
| Session.Game.PlacementClick | src/main.ts:1398-1423 | the cost is deducted only when covered and a tower was placed, so the currency never goes negative; the placed tower is posted and the selection and placing flag are cleared; without a placement the towers, selection, currency and network are unchanged; an affordable valid click always places |
| Session.Game.GameOverClick | src/main.ts:1363-1395 | on the game-over screen, a click on Play Again restores 100 lives, round 0 and a started game, keeping the manager's network flags; a click on Main Menu returns to the menu; other clicks change nothing |
| Session.Game.OnGameStart | src/main.ts:551-569 | the game starts, the remote ship takes the other roster entry's name and ship, and the enemy manager is linked |
| Session.Game.OnRemotePlayerUpdate | src/main.ts:572-581 | in a started game the proxy takes the name, ship, target and angle; otherwise nothing changes |
| Session.Game.OnRemoteBullet | src/main.ts:596-607 | exactly one red remote bullet is appended, even outside a game |
| Session.Game.OnTowerPlacement | src/main.ts:609-614 | in a started game exactly the peer's tower is appended |
| Session.Game.OnEnemySync | src/main.ts:616-621 | in a started game the replica becomes the reconciliation with the snapshot |
| Session.Game.OnRoundStart | src/main.ts:623-628 | in a started game the manager takes the `RoundBegun` step: a side without an active round starts one with lives, list and flags kept, and posts round_start exactly when it is the networked host; while a round is active nothing changes; outside a game nothing changes |
| Session.Game.StartRoundClick | src/main.ts:914-923 | a canvas-relative click that, divided by some installed Start Round listener's own scale, lies inside that listener's button takes the `RoundBegun` step, on any screen; any other click changes neither the manager nor the network |
| Session.StartButtonOverlapsMainMenu | src/main.ts:888-923 | for a listener installed at the current scale, the click at world point (width / 2, 675) hits its Start Round button and lies on the game-over Main Menu button (src/main.ts:1387-1391), and not on Play Again |
| Session.StartButtonKeepsInstallScale | src/main.ts:914-923 | after the window shrinks from 1080 to 540 high, a click on the redrawn button hits a listener installed at scale 0.5 but misses the one installed at scale 1 |
| Session.Game.EaseRemote | src/main.ts:952-955 | a valid remote ship moves a tenth of the way to its target |
| Session.Game.Combat | src/main.ts:806-812 | the towers take their firing turns, the projectiles become the remaining ones, and the enemy list carries exactly the damage of the old and new projectiles |
| Session.Game.AdvanceEnemies | src/main.ts:843-854 | the manager's new state is `Advanced` from its old list; the networked host posts the new snapshot and otherwise nothing is sent; lives <= 0 switches to game over with the game stopped |
| Session.Game.Frame | src/main.ts:806-994 | on the game screen: combat in a started game (towers and projectiles given), then, in a started or single-player game, the manager `Advanced` from the damaged list, the host's snapshot posted, game over at lives <= 0, a Start Round listener with the frame's world width and scale installed when no round is active, and the bullets moved; off the game screen or outside that gate nothing else changes |
| Session.Game.Simulate | src/main.ts:843-988 | the gated part of a frame: the manager is `Advanced` from its old list, the host's snapshot is posted, lives <= 0 ends the game, with no round active one more Start Round listener, holding the frame's world width and scale, is installed, and the bullets become the moved in-world ones |

## Left out

- Drawing of every kind, DOM construction, menus, lobby screens, fullscreen,
  orientation and clipboard handling: presentation only.
  `TowerManager.updatePlacementPreview` only feeds the drawing.
- The PeerJS objects: the server and ICE configuration, the `peer.on` wiring
  of errors and disconnects, status messages, the room-code callback and
  `setupClient`. They are foreign transport code. The model keeps the
  connection's peer id, the open flag and the send log.
- Timers: the spawn interval, the 16 ms (`initNetwork`) and 100 ms position
  broadcasts, and `debounce`. The spawn timer's firing is
  `EnemyManager.SpawnTick`, and the broadcasts are `SendPosition` calls.
- `Math.random` and `generateId`: ids and the enemy-type index are parameters.
- Floating point, trigonometry and square roots:
  - numbers are exact reals;
  - target search compares squared distances, which gives the same choice
    because ranges are non-negative;
  - velocities are parameters;
  - the ship's thrust, friction and speed-cap physics (`updatePlayerMovement`)
    is not modelled.
- Image loading: the load handle stored by `loadBackground` is an opaque
  number.
- Aliasing of enemy objects. The source mutates the same `Enemy` objects from
  `TowerManager.update` and `EnemyManager`. Enemies are values here, and
  `Session.Game.Combat` writes the damaged list back.
- Enemies.Reconcile: a snapshot with a repeated id is not modelled faithfully.
  When the id matches an existing enemy, the source updates that one object
  once per entry, so every entry shows the last entry's position, health and
  progress. The model gives each entry its own snapshot data, so the entries
  differ unless the snapshot entries agree. When the id matches no existing
  enemy, the source builds separate objects, as the model does. An enemy-type
  string outside the three kinds cannot be represented.
- `getEnemies`, `getLives`, `isRoundInProgress`, `getSelectedTowerType`,
  `getConnectionId`, `isGridVisible` and `Player.getStats` are plain field
  reads.
- `gameLoop` in src/main.ts is never scheduled and is not modelled.
- Session.InterpolatePosition: the default argument `factor = 0.2` is not
  modelled, since Dafny takes every argument explicitly. Nothing in the source
  calls `interpolatePosition`; the remote ship eases by its own 0.1 step
  (`Session.Game.EaseRemote`).
- Canvas clicks: every click reaches every installed canvas listener. There
  are three permanent ones: the main menu (src/main.ts:1305), the game-over
  buttons (1363) and tower placement (1398). There are also the Start Round
  listeners that `render` adds (914). The model has one method per listener,
  `GameOverClick`, `PlacementClick` and `StartRoundClick`, and does not
  compose them into a single click. `GameOverClick` and `PlacementClick` take
  the click in world coordinates, since their listeners divide by the current
  scale; `StartRoundClick` takes it relative to the canvas, since each Start
  Round listener divides by its own. The main-menu listener is UI wiring (see
  below). The grid-toggle listener that the debug menu adds on each frame
  (1254) belongs to the debug overlay and is not modelled.
- The main-menu, single-player and lobby start handlers of src/main.ts: UI
  wiring around `NetworkManager.initialize`.
- src/game.ts has no behaviour, and vite.config.ts is build configuration.
- MapGrid.TileMap.CreateEnemyPath: assumes a present path row is at least as
  wide as the column count. JavaScript would lengthen a shorter row by
  assignment. The grid is always built from the same canvas, so that case does
  not arise.
- MapGrid.TileMap.CreateTowerTiles: the same assumption for the rows of the
  tower window.
- Enemies.EnemyManager.SpawnTick: the random enemy-type index must lie within
  the round's type list, as `Math.floor(Math.random() * length)` does.
- Network.NetworkManager.OnClose: requires a connection to exist. The close
  handler is only installed on an existing connection.
- Session.Game.Frame: collisions between the player ship and enemies, and the
  drawing between the steps, are not modelled. Ship movement
  (`updatePlayerMovement`, src/main.ts:844, which may call `shoot`) and the
  remote-ship easing (src/main.ts:952-955) run under the same
  `gameStarted || isSinglePlayer` gate in a frame. The model keeps them as the
  separate steps `Session.Game.Shoot` and `Session.Game.EaseRemote`, which
  `Frame` does not call.

## Findings

| source | as written | input that shows it | evidently intended | confidence | as-written member | corrected member |
|---|---|---|---|---|---|---|
| src/map.ts:58-59 | the path and tower marking run once when the module is first imported, before src/main.ts:17 creates the canvas, so both return at once; the grid is later built only by `initializeMapGrid` on a window resize, all EMPTY | any page load followed by a resize | the grid shows the enemy path in row 7 and tower tiles in rows 5-9 | medium, not executed | MapGrid.TileMap.StartupAsWritten | MapGrid.TileMap.Rebuild |
