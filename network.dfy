// The peer-to-peer session layer of src/network.ts.
//
// The PeerJS transport is abstracted away: `connection` holds the remote
// peer's id once a data connection object exists, `isConnected` is the
// "open" flag, and `sent` is the log of everything handed to the
// connection's send function, in order.  Incoming transport events are
// methods (OnOpen, OnData, OnClose, ...) and the callbacks the game
// registered are a set of callback kinds; a callback invocation is
// returned as an Event for the caller to act on.

module Network {
  import opened Wrappers
  import Enemies
  import Towers

  /** The ship type every local player announces (never reassigned). */
  const DefaultShip: string := "ship1"
  /** The roster id the host gives itself. */
  const HostId: string := "host"

  datatype PlayerInfo = PlayerInfo(id: string, name: string, shipType: string)

  /** The wire messages, one constructor per `type` tag.  A position whose
      coordinate is missing or not a number carries None there. */
  datatype Message =
    | PlayerJoin(name: string, shipType: string)
    | PlayersUpdate(players: seq<PlayerInfo>)
    | Ship(shipType: string)
    | Position(px: Option<real>, py: Option<real>, name: string, shipType: string, angle: real)
    | Bullet(bulletX: real, bulletY: real, vx: real, vy: real, bulletShip: string)
    | TowerPlacement(tower: Towers.PlacedTower)
    | EnemySync(enemies: seq<Enemies.EnemyData>)
    | RoundStart
    | GameStart(roster: seq<PlayerInfo>)
    | Unrecognised(tag: string)

  /** The callbacks the game can register. */
  datatype Callback =
    | OnPlayersUpdate | OnGameStart | OnConnected | OnTowerPlacement
    | OnEnemySync | OnRoundStart | OnRemoteUpdate | OnRemoteBullet

  /** A callback invocation together with its arguments. */
  datatype Event =
    | PlayersChanged(players: seq<PlayerInfo>)
    | RemotePosition(x: real, y: real, name: string, shipType: string, angle: real)
    | RemoteBullet(x: real, y: real, vx: real, vy: real, shipType: string)
    | RemoteTower(tower: Towers.PlacedTower)
    | EnemySnapshot(enemies: seq<Enemies.EnemyData>)
    | RoundStarted
    | GameStarted(players: seq<PlayerInfo>)
    | Connected

  /** The callback a message of this type is delivered to, if any. */
  function Handler(m: Message): Option<Callback>
  {
    match m
    case Position(_, _, _, _, _) => Some(OnRemoteUpdate)
    case Bullet(_, _, _, _, _) => Some(OnRemoteBullet)
    case TowerPlacement(_) => Some(OnTowerPlacement)
    case EnemySync(_) => Some(OnEnemySync)
    case RoundStart => Some(OnRoundStart)
    case PlayersUpdate(_) => Some(OnPlayersUpdate)
    case GameStart(_) => Some(OnGameStart)
    case PlayerJoin(_, _) => None
    case Ship(_) => None
    case Unrecognised(_) => None
  }

  /** The network-side filter on remote positions: both coordinates must be
      numbers and both must be non-zero. */
  predicate PositionAccepted(px: Option<real>, py: Option<real>)
  {
    px.Some? && py.Some? && px.value != 0.0 && py.value != 0.0
  }

  /** The receive dispatch for every message type except `player_join`. */
  function Dispatch(m: Message, cbs: set<Callback>): (ev: Option<Event>)
    requires !m.PlayerJoin?
    ensures ev.Some? <==>
      Handler(m).Some? && Handler(m).value in cbs
      && (m.Position? ==> PositionAccepted(m.px, m.py))
    ensures m.Position? && ev.Some? ==>
      ev.value == RemotePosition(m.px.value, m.py.value, m.name, m.shipType, m.angle)
    ensures m.Bullet? && ev.Some? ==> ev.value == RemoteBullet(m.bulletX, m.bulletY, m.vx, m.vy, m.bulletShip)
    ensures m.TowerPlacement? && ev.Some? ==> ev.value == RemoteTower(m.tower)
    ensures m.EnemySync? && ev.Some? ==> ev.value == EnemySnapshot(m.enemies)
    ensures m.PlayersUpdate? && ev.Some? ==> ev.value == PlayersChanged(m.players)
    ensures m.GameStart? && ev.Some? ==> ev.value == GameStarted(m.roster)
    ensures m.RoundStart? && ev.Some? ==> ev.value == RoundStarted
  {
    match m
    case Position(px, py, name, ship, angle) =>
      if OnRemoteUpdate in cbs && PositionAccepted(px, py)
      then Some(RemotePosition(px.value, py.value, name, ship, angle)) else None
    case Bullet(x, y, vx, vy, ship) =>
      if OnRemoteBullet in cbs then Some(RemoteBullet(x, y, vx, vy, ship)) else None
    case TowerPlacement(t) =>
      if OnTowerPlacement in cbs then Some(RemoteTower(t)) else None
    case EnemySync(snap) =>
      if OnEnemySync in cbs then Some(EnemySnapshot(snap)) else None
    case RoundStart =>
      if OnRoundStart in cbs then Some(RoundStarted) else None
    case PlayersUpdate(ps) =>
      if OnPlayersUpdate in cbs then Some(PlayersChanged(ps)) else None
    case GameStart(ps) =>
      if OnGameStart in cbs then Some(GameStarted(ps)) else None
    case Ship(_) => None
    case Unrecognised(_) => None
  }

  /** The roster with every entry of peer `id` removed, order kept. */
  function RemovePeer(ps: seq<PlayerInfo>, id: string): (r: seq<PlayerInfo>)
    ensures |r| <= |ps|
    ensures forall i :: 0 <= i < |r| ==> r[i].id != id && r[i] in ps
    ensures forall i :: 0 <= i < |ps| && ps[i].id != id ==> ps[i] in r
  {
    if ps == [] then []
    else
      var last := ps[|ps| - 1];
      RemovePeer(ps[..|ps| - 1], id) + (if last.id == id then [] else [last])
  }

  /** Removing a peer from a roster in two parts removes it from each part,
      so the entries that stay keep their order. */
  lemma {:induction false} RemovePeerAppend(a: seq<PlayerInfo>, b: seq<PlayerInfo>, id: string)
    ensures RemovePeer(a + b, id) == RemovePeer(a, id) + RemovePeer(b, id)
  {
    if b == [] {
      assert a + b == a;
    } else {
      var init := b[..|b| - 1];
      RemovePeerAppend(a, init, id);
      assert (a + b)[..|a + b| - 1] == a + init;
      assert (a + b)[|a + b| - 1] == b[|b| - 1];
      assert RemovePeer(a, id) + RemovePeer(init, id) + (if b[|b| - 1].id == id then [] else [b[|b| - 1]])
          == RemovePeer(a, id) + (RemovePeer(init, id) + (if b[|b| - 1].id == id then [] else [b[|b| - 1]]));
    }
  }

  /** Every entry of another peer stays as many times as it was there; none of `id` stays. */
  lemma {:induction false} RemovePeerCounts(ps: seq<PlayerInfo>, id: string, p: PlayerInfo)
    ensures multiset(RemovePeer(ps, id))[p] == if p.id == id then 0 else multiset(ps)[p]
  {
    if ps != [] {
      var init, last := ps[..|ps| - 1], ps[|ps| - 1];
      RemovePeerCounts(init, id, p);
      RemovePeerLast(ps, id);
      CountStep(RemovePeer(ps, id), RemovePeer(init, id), ps, id, p);
    }
  }

  /** The counting step of RemovePeerCounts, for any list filtered one entry further. */
  lemma CountStep(r: seq<PlayerInfo>, r0: seq<PlayerInfo>, ps: seq<PlayerInfo>, id: string, p: PlayerInfo)
    requires ps != []
    requires r == r0 + (if ps[|ps| - 1].id == id then [] else [ps[|ps| - 1]])
    requires multiset(r0)[p] == if p.id == id then 0 else multiset(ps[..|ps| - 1])[p]
    ensures multiset(r)[p] == if p.id == id then 0 else multiset(ps)[p]
  {
    var init, last := ps[..|ps| - 1], ps[|ps| - 1];
    assert ps == init + [last];
    CountAppend(init, [last], p);
    if last.id != id {
      CountAppend(r0, [last], p);
    }
  }

  /** The filter's last step: the filtered prefix, then the last entry unless it is the peer's. */
  lemma RemovePeerLast(ps: seq<PlayerInfo>, id: string)
    requires ps != []
    ensures RemovePeer(ps, id) == RemovePeer(ps[..|ps| - 1], id) + (if ps[|ps| - 1].id == id then [] else [ps[|ps| - 1]])
  {
  }

  /** Occurrences in a sequence followed by one entry add up. */
  lemma CountAppend(a: seq<PlayerInfo>, b: seq<PlayerInfo>, p: PlayerInfo)
    requires |b| == 1
    ensures multiset(a + b)[p] == multiset(a)[p] + (if b[0] == p then 1 else 0)
  {
    assert multiset(a + b) == multiset(a) + multiset(b);
    assert multiset(b) == multiset{b[0]} by { assert b == [b[0]]; }
  }

  /** Removing a peer nobody has is the identity. */
  lemma {:induction false} RemoveAbsentPeer(ps: seq<PlayerInfo>, id: string)
    requires forall i :: 0 <= i < |ps| ==> ps[i].id != id
    ensures RemovePeer(ps, id) == ps
  {
    if ps != [] {
      var init := ps[..|ps| - 1];
      RemoveAbsentPeer(init, id);
      assert ps == init + [ps[|ps| - 1]];
    }
  }

  /** A peer that joins and then closes leaves the roster as it would be had
      it never joined. */
  lemma JoinThenClose(ps: seq<PlayerInfo>, id: string, name: string, ship: string)
    ensures RemovePeer(ps + [PlayerInfo(id, name, ship)], id) == RemovePeer(ps, id)
  {
    assert (ps + [PlayerInfo(id, name, ship)])[..|ps|] == ps;
  }

  /** Closing the same peer twice is closing it once. */
  lemma {:induction false} RemovePeerIdempotent(ps: seq<PlayerInfo>, id: string)
    ensures RemovePeer(RemovePeer(ps, id), id) == RemovePeer(ps, id)
  {
    RemoveAbsentPeer(RemovePeer(ps, id), id);
  }

  class NetworkManager {
    var isHost: bool
    var playerName: string
    /** The remote peer of the current data connection, once one exists. */
    var connection: Option<string>
    var connectionId: Option<string>
    var isConnected: bool
    var players: seq<PlayerInfo>
    /** Messages waiting for the connection to open, oldest first. */
    var messageQueue: seq<Message>
    /** Every message handed to the connection, oldest first. */
    var sent: seq<Message>
    var callbacks: set<Callback>

    /** Connected implies a connection exists and nothing waits in the queue. */
    ghost predicate Valid()
      reads this
    {
      isConnected ==> connection.Some? && messageQueue == []
    }

    constructor ()
      ensures Valid()
      ensures !isHost && playerName == "" && connection == None && connectionId == None
      ensures !isConnected && players == [] && messageQueue == [] && sent == [] && callbacks == {}
    {
      isHost := false;
      playerName := "";
      connection := None;
      connectionId := None;
      isConnected := false;
      players := [];
      messageQueue := [];
      sent := [];
      callbacks := {};
    }

    /** The effect of `sendMessage(m)` between the old and the new state. */
    twostate predicate Posted(m: Message)
      reads this
    {
      if old(connection).Some? && old(isConnected)
      then sent == old(sent) + [m] && messageQueue == old(messageQueue)
      else sent == old(sent) && messageQueue == old(messageQueue) + [m]
    }

    function GetConnectionId(): Option<string>
      reads this
    {
      connectionId
    }

    method Register(cb: Callback)
      modifies this`callbacks
      ensures callbacks == old(callbacks) + {cb}
    {
      callbacks := callbacks + {cb};
    }

    method Initialize(host: bool, name: string)
      modifies this`isHost, this`playerName
      ensures isHost == host && playerName == name
    {
      isHost := host;
      playerName := name;
    }

    /** The host's peer has opened: the roster is the host alone. */
    method OnHostPeerOpen() returns (ev: Option<Event>)
      requires isHost
      modifies this`players
      ensures players == [PlayerInfo(HostId, playerName, DefaultShip)]
      ensures ev == if OnPlayersUpdate in callbacks then Some(PlayersChanged(players)) else None
    {
      players := [PlayerInfo(HostId, playerName, DefaultShip)];
      ev := if OnPlayersUpdate in callbacks then Some(PlayersChanged(players)) else None;
    }

    /** The guest's peer has opened: it connects to the host. */
    method ConnectToHost(hostId: string)
      requires Valid()
      modifies this`connection
      ensures Valid()
      ensures connection == Some(hostId)
    {
      connection := Some(hostId);
    }

    /** A remote peer connected to us; the host answers with its roster. */
    method AcceptConnection(peer: string)
      requires Valid()
      modifies this`connection, this`sent
      ensures Valid()
      ensures connection == Some(peer)
      ensures sent == old(sent) + (if isHost then [PlayersUpdate(players)] else [])
    {
      connection := Some(peer);
      if isHost {
        sent := sent + [PlayersUpdate(players)];
      }
    }

    /** Send now when connected, otherwise queue: nothing is dropped. */
    method SendMessage(m: Message)
      requires Valid()
      modifies this`sent, this`messageQueue
      ensures Valid()
      ensures Posted(m)
      ensures sent + messageQueue == old(sent) + old(messageQueue) + [m]
    {
      if connection.Some? && isConnected {
        sent := sent + [m];
      } else {
        messageQueue := messageQueue + [m];
      }
    }

    /** The connection opened: drain the queue in order, then announce us. */
    method OnOpen() returns (ev: Option<Event>)
      requires Valid()
      modifies this`connectionId, this`isConnected, this`messageQueue, this`sent
      ensures Valid()
      ensures connection.None? ==>
        ev == None && connectionId == old(connectionId) && isConnected == old(isConnected)
        && messageQueue == old(messageQueue) && sent == old(sent)
      ensures connection.Some? ==>
        connectionId == connection && isConnected && messageQueue == []
        && sent == old(sent) + old(messageQueue) + [PlayerJoin(playerName, DefaultShip)]
        && ev == (if OnConnected in callbacks then Some(Connected) else None)
    {
      if connection.None? {
        return None;
      }
      connectionId := connection;
      isConnected := true;
      while messageQueue != []
        invariant connectionId == connection && isConnected
        invariant sent + messageQueue == old(sent) + old(messageQueue)
        decreases |messageQueue|
      {
        var m := messageQueue[0];
        assert messageQueue == [m] + messageQueue[1..];
        messageQueue := messageQueue[1..];
        sent := sent + [m];
      }
      assert sent == old(sent) + old(messageQueue);
      ev := if OnConnected in callbacks then Some(Connected) else None;
      sent := sent + [PlayerJoin(playerName, DefaultShip)];
    }

    /** A message arrived on the connection. */
    method OnData(m: Message) returns (ev: Option<Event>)
      requires Valid()
      modifies this`players, this`sent
      ensures Valid()
      ensures connection.Some? && m.PlayerJoin? && isHost ==>
        players == old(players) + [PlayerInfo(connection.value, m.name, m.shipType)]
        && sent == old(sent) + [PlayersUpdate(players)]
        && ev == (if OnPlayersUpdate in callbacks then Some(PlayersChanged(players)) else None)
      ensures !(connection.Some? && m.PlayerJoin? && isHost) ==>
        players == old(players) && sent == old(sent)
      ensures connection.None? || (m.PlayerJoin? && !isHost) ==> ev == None
      ensures connection.Some? && !m.PlayerJoin? ==> ev == Dispatch(m, callbacks)
    {
      if connection.None? {
        return None;
      }
      if m.PlayerJoin? {
        ev := None;
        if isHost {
          players := players + [PlayerInfo(connection.value, m.name, m.shipType)];
          ev := if OnPlayersUpdate in callbacks then Some(PlayersChanged(players)) else None;
          sent := sent + [PlayersUpdate(players)];
        }
      } else {
        ev := Dispatch(m, callbacks);
      }
    }

    /** The connection closed; the host drops the current peer from its roster. */
    method OnClose() returns (ev: Option<Event>)
      requires Valid() && connection.Some?
      modifies this`isConnected, this`players
      ensures Valid()
      ensures !isConnected
      ensures players == if isHost then RemovePeer(old(players), connection.value) else old(players)
      ensures ev == if isHost && OnPlayersUpdate in callbacks then Some(PlayersChanged(players)) else None
    {
      isConnected := false;
      ev := None;
      if isHost {
        players := RemovePeer(players, connection.value);
        if OnPlayersUpdate in callbacks {
          ev := Some(PlayersChanged(players));
        }
      }
    }

    /** Only the host starts the game, sending it the current roster. */
    method StartGame() returns (ev: Option<Event>)
      requires Valid()
      modifies this`sent, this`messageQueue
      ensures Valid()
      ensures !isHost ==> ev == None && sent == old(sent) && messageQueue == old(messageQueue)
      ensures isHost ==>
        Posted(GameStart(players))
        && ev == (if OnGameStart in callbacks then Some(GameStarted(players)) else None)
    {
      ev := None;
      if isHost {
        SendMessage(GameStart(players));
        if OnGameStart in callbacks {
          ev := Some(GameStarted(players));
        }
      }
    }

    method SendPosition(x: real, y: real, name: string, ship: string, angle: real)
      requires Valid()
      modifies this`sent, this`messageQueue
      ensures Valid()
      ensures Posted(Position(Some(x), Some(y), name, ship, angle))
    {
      SendMessage(Position(Some(x), Some(y), name, ship, angle));
    }

    method SendBullet(x: real, y: real, vx: real, vy: real, ship: string)
      requires Valid()
      modifies this`sent, this`messageQueue
      ensures Valid()
      ensures Posted(Bullet(x, y, vx, vy, ship))
    {
      SendMessage(Bullet(x, y, vx, vy, ship));
    }

    method SendTowerPlacement(t: Towers.PlacedTower)
      requires Valid()
      modifies this`sent, this`messageQueue
      ensures Valid()
      ensures Posted(TowerPlacement(t))
    {
      SendMessage(TowerPlacement(t));
    }

    method SendEnemySync(snap: seq<Enemies.EnemyData>)
      requires Valid()
      modifies this`sent, this`messageQueue
      ensures Valid()
      ensures Posted(EnemySync(snap))
    {
      SendMessage(EnemySync(snap));
    }

    method SendRoundStart()
      requires Valid()
      modifies this`sent, this`messageQueue
      ensures Valid()
      ensures Posted(RoundStart)
    {
      SendMessage(RoundStart);
    }

    method SendShipUpdate(ship: string)
      requires Valid()
      modifies this`sent, this`messageQueue
      ensures Valid()
      ensures Posted(Ship(ship))
    {
      SendMessage(Ship(ship));
    }
  }

  /** A position this side sends with both coordinates non-zero is delivered
      to a registered callback unchanged; one with a zero coordinate never is. */
  lemma SentPositionDelivery(x: real, y: real, name: string, ship: string, angle: real, cbs: set<Callback>)
    ensures Dispatch(Position(Some(x), Some(y), name, ship, angle), cbs).Some?
      <==> OnRemoteUpdate in cbs && x != 0.0 && y != 0.0
    ensures OnRemoteUpdate in cbs && x != 0.0 && y != 0.0 ==>
      Dispatch(Position(Some(x), Some(y), name, ship, angle), cbs) == Some(RemotePosition(x, y, name, ship, angle))
  {
  }

  /** Messages without a handler (`ship`, unknown tags) never produce an event. */
  lemma UnhandledIgnored(m: Message, cbs: set<Callback>)
    requires m.Ship? || m.Unrecognised?
    ensures Dispatch(m, cbs) == None
  {
  }
}
