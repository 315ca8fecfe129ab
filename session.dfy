// The game-session glue of src/main.ts: the module-level state (screen,
// start flags, currency, the bullet list, the shot clock), the pure helpers
// keepInBounds and interpolatePosition, and the handlers and per-frame step
// that connect the managers to each other and to the network.
//
// Clock readings, click coordinates, the world width derived from the
// window, bullet and projectile velocities (trigonometry) and random ids
// are parameters.

module Session {
  import opened Wrappers
  import Utils
  import Enemies
  import Towers
  import Network
  import Players

  const PlayerSize: real := 20.0
  /** Milliseconds between two local shots. */
  const ShotCooldown: real := 300.0
  const StartingCurrency: int := 500
  /** The fraction the render step moves the remote ship toward its target. */
  const RemoteEase: real := 0.1

  datatype Screen = MainMenu | Lobby | InGame | GameOver

  datatype Owner = Local | Remote

  datatype Bullet = Bullet(x: real, y: real, vx: real, vy: real, color: string, owner: Owner, shipType: string)

  /** keepInBounds: the ship's centre kept half a ship inside the world. */
  function KeepInBounds(x: real, y: real, worldWidth: real): (p: Enemies.Point)
    ensures PlayerSize / 2.0 <= p.x && PlayerSize / 2.0 <= p.y <= Enemies.GameHeight - PlayerSize / 2.0
    ensures worldWidth >= PlayerSize ==> p.x <= worldWidth - PlayerSize / 2.0
    ensures PlayerSize / 2.0 <= x <= worldWidth - PlayerSize / 2.0 ==> p.x == x
    ensures PlayerSize / 2.0 <= y <= Enemies.GameHeight - PlayerSize / 2.0 ==> p.y == y
  {
    Enemies.Point(
      Utils.Max(PlayerSize / 2.0, Utils.Min(x, worldWidth - PlayerSize / 2.0)),
      Utils.Max(PlayerSize / 2.0, Utils.Min(y, Enemies.GameHeight - PlayerSize / 2.0)))
  }

  /** On a world at least one ship wide keepInBounds is clamp on each axis,
      so keeping an already kept point changes nothing. */
  lemma KeepInBoundsIsClamp(x: real, y: real, worldWidth: real)
    requires worldWidth >= PlayerSize
    ensures KeepInBounds(x, y, worldWidth) ==
      Enemies.Point(Utils.Clamp(x, PlayerSize / 2.0, worldWidth - PlayerSize / 2.0),
                    Utils.Clamp(y, PlayerSize / 2.0, Enemies.GameHeight - PlayerSize / 2.0))
    ensures var p := KeepInBounds(x, y, worldWidth); KeepInBounds(p.x, p.y, worldWidth) == p
  {
  }

  /** interpolatePosition is lerp. */
  function InterpolatePosition(current: real, target: real, factor: real): (r: real)
    ensures r == Utils.Lerp(current, target, factor)
    ensures factor == 0.0 ==> r == current
    ensures factor == 1.0 ==> r == target
  {
    current + (target - current) * factor
  }

  function MoveBullet(b: Bullet): Bullet
  {
    b.(x := b.x + b.vx, y := b.y + b.vy)
  }

  predicate InWorld(b: Bullet, worldWidth: real)
  {
    0.0 <= b.x <= worldWidth && 0.0 <= b.y <= Enemies.GameHeight
  }

  /** The render step's bullet filter: move every bullet, keep those still
      inside the world, in order. */
  function BulletsAfter(bs: seq<Bullet>, worldWidth: real): seq<Bullet>
  {
    if bs == [] then []
    else
      var moved := MoveBullet(bs[|bs| - 1]);
      BulletsAfter(bs[..|bs| - 1], worldWidth) + (if InWorld(moved, worldWidth) then [moved] else [])
  }

  /** Every kept bullet is a moved input bullet inside the world, and every
      moved input bullet inside the world is kept. */
  lemma {:induction false} BulletsAfterSpec(bs: seq<Bullet>, worldWidth: real)
    ensures |BulletsAfter(bs, worldWidth)| <= |bs|
    ensures forall b :: b in BulletsAfter(bs, worldWidth) ==> InWorld(b, worldWidth)
    ensures forall b :: b in BulletsAfter(bs, worldWidth) ==> exists i :: 0 <= i < |bs| && b == MoveBullet(bs[i])
    ensures forall i :: 0 <= i < |bs| && InWorld(MoveBullet(bs[i]), worldWidth) ==>
      MoveBullet(bs[i]) in BulletsAfter(bs, worldWidth)
  {
    if bs != [] {
      var init := bs[..|bs| - 1];
      BulletsAfterSpec(init, worldWidth);
      forall b | b in BulletsAfter(bs, worldWidth)
        ensures exists i :: 0 <= i < |bs| && b == MoveBullet(bs[i])
      {
        if b in BulletsAfter(init, worldWidth) {
          var i :| 0 <= i < |init| && b == MoveBullet(init[i]);
          assert bs[i] == init[i];
        } else {
          assert b == MoveBullet(bs[|bs| - 1]);
        }
      }
      forall i | 0 <= i < |bs| && InWorld(MoveBullet(bs[i]), worldWidth)
        ensures MoveBullet(bs[i]) in BulletsAfter(bs, worldWidth)
      {
        if i < |bs| - 1 {
          assert bs[i] == init[i];
        }
      }
    }
  }

  /** When every bullet's move takes it out of the world, none is kept. */
  lemma {:induction false} BulletsAllLeave(bs: seq<Bullet>, worldWidth: real)
    requires forall i :: 0 <= i < |bs| ==> !InWorld(MoveBullet(bs[i]), worldWidth)
    ensures BulletsAfter(bs, worldWidth) == []
  {
    if bs != [] {
      BulletsAllLeave(bs[..|bs| - 1], worldWidth);
    }
  }

  /** The first roster entry whose id differs from `self`.  The host passes
      'host'; a guest passes its connection id, which is the remote peer's
      (the host's) id, so it finds the 'host' entry.  A missing id matches
      no entry, so the first entry is taken. */
  function OtherPlayer(players: seq<Network.PlayerInfo>, self: Option<string>): (r: Option<Network.PlayerInfo>)
    ensures r.Some? ==> r.value in players && (self.Some? ==> r.value.id != self.value)
    ensures r.None? ==> forall p :: p in players ==> self.Some? && p.id == self.value
  {
    if players == [] then None
    else if self.None? || players[0].id != self.value then Some(players[0])
    else OtherPlayer(players[1..], self)
  }

  /** The network's position filter is stricter than the proxy's latch: a
      delivered position always latches it, but a position with exactly one
      zero coordinate would latch it and is never delivered. */
  lemma FilterStricterThanLatch(x: real, y: real)
    ensures Network.PositionAccepted(Some(x), Some(y)) ==> Players.AwayFromOrigin(x, y)
    ensures Players.AwayFromOrigin(0.0, 5.0) && !Network.PositionAccepted(Some(0.0), Some(5.0))
  {
  }

  /** The 200-wide column, centred on the world, that every canvas button lies in. */
  predicate OnButtonColumn(worldWidth: real, x: real)
  {
    worldWidth / 2.0 - 100.0 < x < worldWidth / 2.0 + 100.0
  }

  /** The game-over screen's Play Again button. */
  predicate OnPlayAgain(worldWidth: real, x: real, y: real)
  {
    OnButtonColumn(worldWidth, x) && Enemies.GameHeight / 2.0 + 50.0 < y < Enemies.GameHeight / 2.0 + 100.0
  }

  /** The game-over screen's Main Menu button, 20 below Play Again. */
  predicate OnMainMenu(worldWidth: real, x: real, y: real)
  {
    OnButtonColumn(worldWidth, x) && Enemies.GameHeight / 2.0 + 120.0 < y < Enemies.GameHeight / 2.0 + 170.0
  }

  /** The Start Round button the round-preparation overlay draws. */
  predicate OnStartButton(worldWidth: real, x: real, y: real)
  {
    OnButtonColumn(worldWidth, x) && Enemies.GameHeight / 2.0 + 100.0 < y < Enemies.GameHeight / 2.0 + 150.0
  }

  /** A Start Round click listener: the world width and the render scale
      (window height over game height) of the frame that installed it. */
  datatype StartButton = StartButton(worldWidth: real, scale: real)

  /** A listener turns the click's canvas-relative client point into world
      coordinates with its own scale; a zero scale puts the click nowhere. */
  predicate StartButtonHit(b: StartButton, clientX: real, clientY: real)
  {
    b.scale > 0.0 && OnStartButton(b.worldWidth, clientX / b.scale, clientY / b.scale)
  }

  /** The Start Round button and the Main Menu button overlap: a click in the
      middle of both, with a Start Round listener installed at the current
      scale, reaches both handlers. */
  lemma StartButtonOverlapsMainMenu(worldWidth: real, scale: real)
    requires scale > 0.0
    ensures OnMainMenu(worldWidth, worldWidth / 2.0, 675.0)
    ensures StartButtonHit(StartButton(worldWidth, scale), scale * (worldWidth / 2.0), scale * 675.0)
    ensures !OnPlayAgain(worldWidth, worldWidth / 2.0, 675.0)
  {
    assert scale * (worldWidth / 2.0) / scale == worldWidth / 2.0;
    assert scale * 675.0 / scale == 675.0;
  }

  /** A listener keeps the scale it was installed with: after the window
      shrinks from 1920x1080 to 960x540, a click on the redrawn button at
      world point (960, 665) misses the listener installed at scale 1. */
  lemma StartButtonKeepsInstallScale()
    ensures OnStartButton(1920.0, 960.0, 665.0) && StartButtonHit(StartButton(1920.0, 0.5), 480.0, 332.5)
    ensures !StartButtonHit(StartButton(1920.0, 1.0), 480.0, 332.5)
  {
  }

  /** The effect of `startRound()` on the enemy manager and the network:
      no change while a round is active; otherwise a round begins with its
      spawn timer, and a networked host posts round_start. */
  twostate predicate RoundBegun(em: Enemies.EnemyManager, net: Network.NetworkManager)
    reads em, net
  {
    if old(em.isRoundActive) then
      unchanged(em) && net.sent == old(net.sent) && net.messageQueue == old(net.messageQueue)
    else
      && em.isRoundActive && em.enemiesSpawned == 0 && em.spawnTimerActive
      && em.enemies == old(em.enemies) && em.currentRound == old(em.currentRound) && em.lives == old(em.lives)
      && em.isHost == old(em.isHost) && em.hasNetwork == old(em.hasNetwork)
      && (em.isHost && em.hasNetwork ==> net.Posted(Network.RoundStart))
      && (!(em.isHost && em.hasNetwork) ==> net.sent == old(net.sent) && net.messageQueue == old(net.messageQueue))
  }

  class Game {
    var gameStarted: bool
    var isSinglePlayer: bool
    var isHost: bool
    var screen: Screen
    var playerX: real
    var playerY: real
    var playerShip: string
    var playerCurrency: int
    var lastShotTime: real
    var bullets: seq<Bullet>
    var towerMenuOpen: bool
    /** The Start Round click listeners installed so far; they are never
        removed, and each fires on every later click. */
    var startButtons: set<StartButton>

    /** Currency is never spent below zero. */
    ghost predicate Valid()
      reads this
    {
      playerCurrency >= 0
    }

    constructor ()
      ensures Valid()
      ensures !gameStarted && !isSinglePlayer && !isHost && screen == MainMenu
      ensures playerX == 0.0 && playerY == 0.0 && playerShip == "ship1"
      ensures playerCurrency == StartingCurrency && lastShotTime == 0.0 && bullets == [] && !towerMenuOpen
      ensures startButtons == {}
    {
      gameStarted := false;
      isSinglePlayer := false;
      isHost := false;
      screen := MainMenu;
      playerX := 0.0;
      playerY := 0.0;
      playerShip := "ship1";
      playerCurrency := StartingCurrency;
      lastShotTime := 0.0;
      bullets := [];
      towerMenuOpen := false;
      startButtons := {};
    }

    /** shoot: at most one bullet per cooldown, and only in a started game;
        in a two-player game the bullet is also sent to the peer. */
    method Shoot(now: real, vx: real, vy: real, net: Network.NetworkManager)
      requires net.Valid()
      modifies this`lastShotTime, this`bullets, net`sent, net`messageQueue
      ensures net.Valid()
      ensures !gameStarted || now - old(lastShotTime) < ShotCooldown ==>
        lastShotTime == old(lastShotTime) && bullets == old(bullets)
        && net.sent == old(net.sent) && net.messageQueue == old(net.messageQueue)
      ensures gameStarted && now - old(lastShotTime) >= ShotCooldown ==>
        && lastShotTime == now
        && bullets == old(bullets) + [Bullet(playerX, playerY, vx, vy, "white", Local, playerShip)]
        && (isSinglePlayer ==> net.sent == old(net.sent) && net.messageQueue == old(net.messageQueue))
        && (!isSinglePlayer ==> net.Posted(Network.Bullet(playerX, playerY, vx, vy, playerShip)))
    {
      if !gameStarted {
        return;
      }
      if now - lastShotTime < ShotCooldown {
        return;
      }
      lastShotTime := now;
      bullets := bullets + [Bullet(playerX, playerY, vx, vy, "white", Local, playerShip)];
      if !isSinglePlayer {
        net.SendBullet(playerX, playerY, vx, vy, playerShip);
      }
    }

    /** The render step's bullet update. */
    method UpdateBullets(worldWidth: real)
      modifies this`bullets
      ensures bullets == BulletsAfter(old(bullets), worldWidth)
    {
      bullets := BulletsAfter(bullets, worldWidth);
    }

    /** The tower-menu button flips the menu. */
    method ToggleTowerMenu()
      modifies this`towerMenuOpen
      ensures towerMenuOpen == !old(towerMenuOpen)
    {
      towerMenuOpen := !towerMenuOpen;
    }

    /** Picking a tower in the menu starts placement only when affordable. */
    method PickTower(tm: Towers.TowerManager, kind: Towers.TowerType)
      modifies this`towerMenuOpen, tm`selectedTowerType, tm`isPlacingTower
      ensures playerCurrency >= Towers.GetTowerCost(kind) ==>
        tm.Valid() && tm.selectedTowerType == Some(kind) && tm.isPlacingTower && !towerMenuOpen
      ensures playerCurrency < Towers.GetTowerCost(kind) ==>
        towerMenuOpen == old(towerMenuOpen) && tm.selectedTowerType == old(tm.selectedTowerType)
        && tm.isPlacingTower == old(tm.isPlacingTower)
    {
      var cost := Towers.GetTowerCost(kind);
      if playerCurrency >= cost {
        tm.StartTowerPlacement(kind);
        towerMenuOpen := false;
      }
    }

    /** A click on the game screen while placing: the tower is placed and
        paid for only when affordable and placeTower succeeded, and it is
        then sent to the peer.  Currency never becomes negative. */
    method PlacementClick(tm: Towers.TowerManager, net: Network.NetworkManager, x: real, y: real, randomId: string)
      returns (placed: Option<Towers.PlacedTower>)
      requires Valid() && tm.Valid() && net.Valid()
      modifies this`playerCurrency, tm`towers, tm`selectedTowerType, tm`isPlacingTower, net`sent, net`messageQueue
      ensures Valid() && tm.Valid() && net.Valid()
      ensures placed.None? ==>
        playerCurrency == old(playerCurrency) && tm.towers == old(tm.towers)
        && net.sent == old(net.sent) && net.messageQueue == old(net.messageQueue)
      ensures placed.Some? ==>
        && screen == InGame && old(tm.selectedTowerType).Some?
        && var cost := Towers.GetTowerCost(old(tm.selectedTowerType).value);
        && old(playerCurrency) >= cost
        && playerCurrency == old(playerCurrency) - cost
        && tm.towers == old(tm.towers) + [Towers.MakeTower(randomId, x, y, old(tm.selectedTowerType).value)]
        && placed.value == Towers.PlacedTower(randomId, x, y, old(tm.selectedTowerType).value)
        && net.Posted(Network.TowerPlacement(placed.value))
        && tm.selectedTowerType == None && !tm.isPlacingTower
      ensures placed.None? ==>
        tm.selectedTowerType == old(tm.selectedTowerType) && tm.isPlacingTower == old(tm.isPlacingTower)
      ensures (screen == InGame && old(tm.selectedTowerType).Some? && old(tm.IsValidPlacement(x, y))
               && old(playerCurrency) >= Towers.GetTowerCost(old(tm.selectedTowerType).value))
              ==> placed.Some?
    {
      placed := None;
      if screen != InGame {
        return;
      }
      if tm.IsPlacing() {
        var cost := Towers.GetTowerCost(tm.GetSelectedTowerType().value);
        if playerCurrency >= cost {
          placed := tm.PlaceTower(x, y, randomId);
          if placed.Some? {
            playerCurrency := playerCurrency - cost;
            net.SendTowerPlacement(placed.value);
          }
        }
      }
    }

    /** The game-over screen's buttons: Play Again resets lives and round
        and returns to a started game; Main Menu returns to the menu. */
    method GameOverClick(em: Enemies.EnemyManager, clickX: real, clickY: real, worldWidth: real)
      requires em.Valid()
      modifies this`screen, this`gameStarted, em
      ensures em.Valid()
      ensures var playAgain := old(screen) == GameOver && OnPlayAgain(worldWidth, clickX, clickY);
        var mainMenu := old(screen) == GameOver && !playAgain && OnMainMenu(worldWidth, clickX, clickY);
        && (playAgain ==>
              screen == InGame && gameStarted && em.lives == 100 && em.currentRound == 0
              && em.enemies == [] && em.enemiesSpawned == 0 && !em.isRoundActive && !em.spawnTimerActive
              && em.isHost == old(em.isHost) && em.hasNetwork == old(em.hasNetwork))
        && (mainMenu ==> screen == MainMenu && gameStarted == old(gameStarted) && unchanged(em))
        && (!playAgain && !mainMenu ==> screen == old(screen) && gameStarted == old(gameStarted) && unchanged(em))
    {
      if screen != GameOver {
        return;
      }
      var startY := Enemies.GameHeight / 2.0 + 50.0;
      var onColumn := worldWidth / 2.0 - 100.0 < clickX < worldWidth / 2.0 + 100.0;
      if startY < clickY < startY + 50.0 && onColumn {
        em.ResetLives();
        em.ResetRound();
        screen := InGame;
        gameStarted := true;
        return;
      }
      if startY + 70.0 < clickY < startY + 120.0 && onColumn {
        screen := MainMenu;
      }
    }

    /** game_start from the host (or our own startGame): enter the game,
        name the remote ship after the other roster entry, and hook the
        enemy manager to the network. */
    method OnGameStart(em: Enemies.EnemyManager, remote: Players.Player,
                       players: seq<Network.PlayerInfo>, connectionId: Option<string>)
      requires em.Valid()
      modifies this`gameStarted, this`screen, remote`name, remote`shipType, em`hasNetwork, em`isHost
      ensures em.Valid() && gameStarted && screen == InGame
      ensures em.hasNetwork && em.isHost == isHost
      ensures var other := OtherPlayer(players, if isHost then Some(Network.HostId) else connectionId);
        if other.Some? then remote.name == other.value.name && remote.shipType == other.value.shipType
        else remote.name == old(remote.name) && remote.shipType == old(remote.shipType)
    {
      gameStarted := true;
      screen := InGame;
      var other := OtherPlayer(players, if isHost then Some(Network.HostId) else connectionId);
      if other.Some? {
        remote.name := other.value.name;
        remote.UpdateShipType(other.value.shipType);
      }
      em.SetNetwork(true, isHost);
    }

    /** A delivered remote position, applied only in a started game. */
    method OnRemotePlayerUpdate(remote: Players.Player, x: real, y: real, name: string, ship: string, angle: real)
      modifies remote`name, remote`shipType, remote`targetX, remote`targetY, remote`angle, remote`hasValidPosition
      ensures !gameStarted ==>
        remote.name == old(remote.name) && remote.shipType == old(remote.shipType)
        && remote.targetX == old(remote.targetX) && remote.targetY == old(remote.targetY)
        && remote.angle == old(remote.angle) && remote.hasValidPosition == old(remote.hasValidPosition)
      ensures gameStarted ==>
        remote.name == name && remote.shipType == ship
        && remote.targetX == x && remote.targetY == y && remote.angle == angle
        && remote.hasValidPosition == (old(remote.hasValidPosition) || Players.AwayFromOrigin(x, y))
    {
      if gameStarted {
        remote.name := name;
        remote.UpdateShipType(ship);
        remote.UpdatePosition(x, y, angle);
      }
    }

    /** A remote bullet is always added, in red, even outside a game. */
    method OnRemoteBullet(x: real, y: real, vx: real, vy: real, ship: string)
      modifies this`bullets
      ensures bullets == old(bullets) + [Bullet(x, y, vx, vy, "red", Remote, ship)]
    {
      bullets := bullets + [Bullet(x, y, vx, vy, "red", Remote, ship)];
    }

    /** A peer's tower is added, unchecked, in a started game. */
    method OnTowerPlacement(tm: Towers.TowerManager, pt: Towers.PlacedTower)
      requires tm.Valid()
      modifies tm`towers
      ensures tm.Valid()
      ensures tm.towers == if gameStarted then old(tm.towers) + [Towers.MakeTower(pt.id, pt.x, pt.y, pt.kind)] else old(tm.towers)
    {
      if gameStarted {
        tm.AddRemoteTower(pt);
      }
    }

    /** An enemy snapshot replaces the local replica in a started game. */
    method OnEnemySync(em: Enemies.EnemyManager, snap: seq<Enemies.EnemyData>, randomIds: seq<string>)
      requires em.Valid() && |randomIds| == |snap|
      modifies em`enemies
      ensures em.Valid()
      ensures em.enemies == if gameStarted then Enemies.Reconcile(old(em.enemies), snap, randomIds) else old(em.enemies)
    {
      if gameStarted {
        em.SyncEnemies(snap, randomIds);
      }
    }

    /** round_start from the host: the guest starts its own round (and its
        own spawn timer); a manager flagged as host would pass it on. */
    method OnRoundStart(em: Enemies.EnemyManager, net: Network.NetworkManager)
      requires em.Valid() && net.Valid()
      modifies em, net`sent, net`messageQueue
      ensures em.Valid() && net.Valid()
      ensures !gameStarted ==> unchanged(em) && net.sent == old(net.sent) && net.messageQueue == old(net.messageQueue)
      ensures gameStarted ==> RoundBegun(em, net)
    {
      if gameStarted {
        var notify := em.StartRound();
        if notify {
          net.SendRoundStart();
        }
      }
    }

    /** A canvas click reaches every Start Round listener installed so far,
        whatever the screen; one whose button holds the click calls
        startRound(), and further calls find the round active and do nothing.
        The click is given relative to the canvas, before any scaling. */
    method StartRoundClick(em: Enemies.EnemyManager, net: Network.NetworkManager, clientX: real, clientY: real)
      requires em.Valid() && net.Valid()
      modifies em, net`sent, net`messageQueue
      ensures em.Valid() && net.Valid()
      ensures var hit := exists b :: b in startButtons && StartButtonHit(b, clientX, clientY);
        && (hit ==> RoundBegun(em, net))
        && (!hit ==> unchanged(em) && net.sent == old(net.sent) && net.messageQueue == old(net.messageQueue))
    {
      if exists b | b in startButtons :: StartButtonHit(b, clientX, clientY) {
        var notify := em.StartRound();
        if notify {
          net.SendRoundStart();
        }
      }
    }

    /** The render step eases the remote ship a tenth of the way to its target. */
    method EaseRemote(remote: Players.Player)
      modifies remote`x, remote`y
      ensures remote.hasValidPosition ==>
        remote.x == Players.Smooth(old(remote.x), remote.targetX, RemoteEase)
        && remote.y == Players.Smooth(old(remote.y), remote.targetY, RemoteEase)
      ensures !remote.hasValidPosition ==> remote.x == old(remote.x) && remote.y == old(remote.y)
    {
      if remote.hasValidPosition {
        remote.x := remote.x + (remote.targetX - remote.x) * RemoteEase;
        remote.y := remote.y + (remote.targetY - remote.y) * RemoteEase;
      }
    }

    /** Towers fire and projectiles resolve; their damage is written back
        to the enemy manager's list. */
    method Combat(em: Enemies.EnemyManager, tm: Towers.TowerManager,
                  now: int, aim: (Towers.Tower, Enemies.Enemy) -> Towers.Velocity,
                  viewWidth: real, viewHeight: real)
      requires tm.Valid()
      modifies em`enemies, tm`towers, tm`projectiles
      ensures tm.Valid()
      ensures tm.towers == Towers.FiredTowers(old(tm.towers), old(em.enemies), now, aim)
      ensures var all := old(tm.projectiles) + Towers.NewShots(old(tm.towers), old(em.enemies), now, aim);
        && tm.projectiles == Towers.Remaining(all, old(em.enemies), viewWidth, viewHeight)
        && em.enemies == Towers.Damaged(all, old(em.enemies))
    {
      var es := tm.Update(em.enemies, now, aim, viewWidth, viewHeight);
      em.enemies := es;
    }

    /** The enemies advance (the snapshot goes to the peer when the manager
        is the networked host), and running out of lives ends the game. */
    method AdvanceEnemies(em: Enemies.EnemyManager, net: Network.NetworkManager)
      requires em.Valid() && net.Valid()
      modifies this`screen, this`gameStarted, em, net`sent, net`messageQueue
      ensures em.Valid() && net.Valid()
      ensures em.Advanced(old(em.enemies))
      ensures em.isHost && em.hasNetwork ==> net.Posted(Network.EnemySync(Enemies.Snapshot(em.enemies)))
      ensures !(em.isHost && em.hasNetwork) ==> net.sent == old(net.sent) && net.messageQueue == old(net.messageQueue)
      ensures em.lives <= 0 ==> screen == GameOver && !gameStarted
      ensures em.lives > 0 ==> screen == old(screen) && gameStarted == old(gameStarted)
    {
      var sync := em.Update();
      if sync.Some? {
        net.SendEnemySync(sync.value);
      }
      if em.lives <= 0 {
        screen := GameOver;
        gameStarted := false;
      }
    }

    /** The simulation part of one rendered frame on the game screen:
        combat in a started game, then, in a started or single-player game,
        enemy movement and the bullets. */
    method Frame(em: Enemies.EnemyManager, tm: Towers.TowerManager, net: Network.NetworkManager,
                 now: int, aim: (Towers.Tower, Enemies.Enemy) -> Towers.Velocity,
                 worldWidth: real, scale: real, viewWidth: real, viewHeight: real)
      requires em.Valid() && tm.Valid() && net.Valid()
      modifies this`screen, this`gameStarted, this`bullets, this`startButtons, em, tm`towers, tm`projectiles, net`sent, net`messageQueue
      ensures em.Valid() && tm.Valid() && net.Valid()
      ensures !(old(screen) == InGame && old(gameStarted)) ==>
        tm.towers == old(tm.towers) && tm.projectiles == old(tm.projectiles)
      ensures old(screen) == InGame && old(gameStarted) ==>
        && tm.towers == Towers.FiredTowers(old(tm.towers), old(em.enemies), now, aim)
        && tm.projectiles == Towers.Remaining(old(tm.projectiles) + Towers.NewShots(old(tm.towers), old(em.enemies), now, aim),
                                              old(em.enemies), viewWidth, viewHeight)
      ensures !(old(screen) == InGame && (old(gameStarted) || isSinglePlayer)) ==>
        && screen == old(screen) && gameStarted == old(gameStarted) && bullets == old(bullets) && unchanged(em)
        && startButtons == old(startButtons)
        && net.sent == old(net.sent) && net.messageQueue == old(net.messageQueue)
      ensures old(screen) == InGame && (old(gameStarted) || isSinglePlayer) ==>
        var hit := if old(gameStarted)
                   then Towers.Damaged(old(tm.projectiles) + Towers.NewShots(old(tm.towers), old(em.enemies), now, aim),
                                       old(em.enemies))
                   else old(em.enemies);
        && em.Advanced(hit)
        && (em.isHost && em.hasNetwork ==> net.Posted(Network.EnemySync(Enemies.Snapshot(em.enemies))))
        && (!(em.isHost && em.hasNetwork) ==> net.sent == old(net.sent) && net.messageQueue == old(net.messageQueue))
        && (em.lives <= 0 ==> screen == GameOver && !gameStarted)
        && (em.lives > 0 ==> screen == old(screen) && gameStarted == old(gameStarted))
        && startButtons == (if em.isRoundActive then old(startButtons) else old(startButtons) + {StartButton(worldWidth, scale)})
        && bullets == BulletsAfter(old(bullets), worldWidth)
    {
      if screen != InGame {
        return;
      }
      if gameStarted {
        Combat(em, tm, now, aim, viewWidth, viewHeight);
      }
      if gameStarted || isSinglePlayer {
        Simulate(em, net, worldWidth, scale);
      }
    }

    /** The gated part of a frame: the enemies advance; with no round active
        the round-preparation overlay installs one more Start Round listener;
        then the bullets move. */
    method Simulate(em: Enemies.EnemyManager, net: Network.NetworkManager, worldWidth: real, scale: real)
      requires em.Valid() && net.Valid()
      modifies this`screen, this`gameStarted, this`bullets, this`startButtons, em, net`sent, net`messageQueue
      ensures em.Valid() && net.Valid()
      ensures em.Advanced(old(em.enemies))
      ensures em.isHost && em.hasNetwork ==> net.Posted(Network.EnemySync(Enemies.Snapshot(em.enemies)))
      ensures !(em.isHost && em.hasNetwork) ==> net.sent == old(net.sent) && net.messageQueue == old(net.messageQueue)
      ensures em.lives <= 0 ==> screen == GameOver && !gameStarted
      ensures em.lives > 0 ==> screen == old(screen) && gameStarted == old(gameStarted)
      ensures startButtons == if em.isRoundActive then old(startButtons) else old(startButtons) + {StartButton(worldWidth, scale)}
      ensures bullets == BulletsAfter(old(bullets), worldWidth)
    {
      AdvanceEnemies(em, net);
      if !em.isRoundActive {
        startButtons := startButtons + {StartButton(worldWidth, scale)};
      }
      UpdateBullets(worldWidth);
    }
  }
}
