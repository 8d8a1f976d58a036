/**
 * One lobby (backend/core/context.py): bounded maps of seated players and bots keyed by id, and
 * a readiness state that moves from waiting to ready once every seated player is ready.
 */
module Lobbies {
  import opened Wrappers
  import Events
  import Seqs
  import opened Players
  import opened Bots

  /** The state strings `'waiting'`, `'ready'` and `'open'`; nothing in the core assigns `'open'`. */
  datatype LobbyState = Waiting | Ready | Open

  /** A lobby config dict; every key is optional. */
  datatype LobbyConfig = LobbyConfig(maxPlayers: Option<int>, maxBots: Option<int>, requireAllReady: Option<bool>)

  const AllReadyEvent := "lobby_all_ready"

  /** `{'lobby_id': lobby_id}` */
  function LobbyPayload(lobbyId: string): Events.Payload {
    map["lobby_id" := Events.Str(lobbyId)]
  }

  /** What the join rules can look at in a lobby. */
  datatype LobbyView = LobbyView(playerCount: nat, maxPlayers: int, memberIds: set<string>, state: LobbyState)

  /** The count fields and the id lists of `to_dict`. */
  datatype LobbySummary = LobbySummary(
    lobbyId: string, state: LobbyState, playerCount: nat, botCount: nat,
    maxPlayers: int, maxBots: int, players: seq<string>, bots: seq<string>)

  class LobbyContext {
    const lobbyId: string
    const config: LobbyConfig
    const bus: Events.EventBus
    var players: map<string, Player>
    var bots: map<string, Bot>
    var state: LobbyState
    const createdAt: int
    const maxPlayers: int
    const maxBots: int
    const requireAllReady: bool

    /**
     * Neither map grows past its bound (a non-positive bound keeps it empty), and every entry is
     * filed under its own id.
     */
    ghost predicate Valid()
      reads this
    {
      && (|players| <= maxPlayers || players == map[])
      && (|bots| <= maxBots || bots == map[])
      && (forall k :: k in players ==> players[k].playerId == k)
      && (forall k :: k in bots ==> bots[k].botId == k)
    }

    /** Defaults: 10 players, 4 bots, all players must be ready. A new lobby is empty and waiting. */
    constructor (lobbyId: string, config: LobbyConfig, bus: Events.EventBus, now: int)
      ensures Valid()
      ensures this.lobbyId == lobbyId && this.config == config && this.bus == bus && createdAt == now
      ensures players == map[] && bots == map[] && state == Waiting
      ensures maxPlayers == config.maxPlayers.GetOr(10)
      ensures maxBots == config.maxBots.GetOr(4)
      ensures requireAllReady == config.requireAllReady.GetOr(true)
    {
      this.lobbyId := lobbyId;
      this.config := config;
      this.bus := bus;
      players := map[];
      bots := map[];
      state := Waiting;
      createdAt := now;
      maxPlayers := config.maxPlayers.GetOr(10);
      maxBots := config.maxBots.GetOr(4);
      requireAllReady := config.requireAllReady.GetOr(true);
    }

    /**
     * `add_player`: seats the player (replacing an entry with the same id) and records the lobby
     * on it only while there is room; when full it is a silent no-op.
     */
    method AddPlayer(player: Player)
      modifies this`players, player`lobbyId
      ensures old(Valid()) ==> Valid()
      ensures !old(IsFull()) ==>
        players == old(players)[player.playerId := player] && player.lobbyId == Some(lobbyId)
      ensures old(IsFull()) ==>
        players == old(players) && player.lobbyId == old(player.lobbyId)
    {
      if !IsFull() {
        players := players[player.playerId := player];
        player.lobbyId := Some(lobbyId);
      }
    }

    /** `remove_player`: deletes exactly that key; a no-op when absent. */
    method RemovePlayer(playerId: string)
      modifies this`players
      ensures old(Valid()) ==> Valid()
      ensures players == old(players) - {playerId}
    {
      if playerId in players {
        players := players - {playerId};
      }
    }

    function GetPlayer(playerId: string): (r: Option<Player>)
      reads this`players
      ensures r.Some? <==> playerId in players
      ensures r.Some? ==> r.value == players[playerId]
    {
      if playerId in players then Some(players[playerId]) else None
    }

    /** `add_bot`: like `add_player`, bounded by `maxBots`. */
    method AddBot(bot: Bot)
      modifies this`bots, bot`lobbyId
      ensures old(Valid()) ==> Valid()
      ensures |old(bots)| < maxBots ==> bots == old(bots)[bot.botId := bot] && bot.lobbyId == Some(lobbyId)
      ensures |old(bots)| >= maxBots ==> bots == old(bots) && bot.lobbyId == old(bot.lobbyId)
    {
      if |bots| < maxBots {
        bots := bots[bot.botId := bot];
        bot.lobbyId := Some(lobbyId);
      }
    }

    /** `remove_bot`: deletes exactly that key; a no-op when absent. */
    method RemoveBot(botId: string)
      modifies this`bots
      ensures old(Valid()) ==> Valid()
      ensures bots == old(bots) - {botId}
    {
      if botId in bots {
        bots := bots - {botId};
      }
    }

    /** Every seated player is ready (vacuously so in an empty lobby). */
    predicate AllPlayersReady()
      reads this, players.Values`ready
    {
      forall k | k in players :: players[k].ready
    }

    /** The outcome of `check_all_ready` in the current state. */
    predicate ReadyToGo()
      reads this, players.Values`ready
    {
      players != map[] && AllPlayersReady() && requireAllReady
    }

    /**
     * `check_all_ready`: false on an empty lobby. Otherwise, exactly when every seated player is
     * ready and the lobby requires it, the state becomes ready and `lobby_all_ready` is emitted.
     * Bots do not take part, and nothing here ever moves the state back to waiting.
     */
    method CheckAllReady(now: int) returns (r: bool)
      requires bus.Valid()
      modifies this`state, bus, bus.sinks
      ensures bus.Valid() && bus.listeners == old(bus.listeners) && bus.sinks == old(bus.sinks)
      ensures r == ReadyToGo()
      ensures state == if r then Ready else old(state)
      ensures bus.emitted == old(bus.emitted) + if r then [Events.EventRecord(AllReadyEvent, LobbyPayload(lobbyId), now)] else []
    {
      if players == map[] {
        return false;
      }
      var allReady := AllPlayersReady();
      if allReady && requireAllReady {
        state := Ready;
        bus.Emit(AllReadyEvent, LobbyPayload(lobbyId), now);
        return true;
      }
      return false;
    }

    /**
     * `set_player_ready`: for a seated player, sets only that player's flag and re-runs
     * `check_all_ready`; for anyone else nothing changes.
     */
    method SetPlayerReady(playerId: string, ready: bool, now: int)
      requires bus.Valid()
      modifies this`state, bus, bus.sinks, players.Values`ready
      ensures bus.Valid() && bus.listeners == old(bus.listeners) && bus.sinks == old(bus.sinks)
      ensures forall p :: p in players.Values ==>
        p.ready == if playerId in players && p == players[playerId] then ready else old(p.ready)
      ensures playerId !in players ==> state == old(state) && bus.emitted == old(bus.emitted)
      ensures playerId in players ==> state == (if ReadyToGo() then Ready else old(state))
      ensures playerId in players ==>
        bus.emitted == old(bus.emitted) + if ReadyToGo() then [Events.EventRecord(AllReadyEvent, LobbyPayload(lobbyId), now)] else []
    {
      if playerId in players {
        players[playerId].ready := ready;
        var _ := CheckAllReady(now);
      }
    }

    function GetPlayerCount(): nat
      reads this`players
    {
      |players|
    }

    function GetBotCount(): nat
      reads this`bots
    {
      |bots|
    }

    /** `is_full` */
    predicate IsFull()
      reads this`players
    {
      |players| >= maxPlayers
    }

    /** The lobby as the join rules see it. */
    function View(): (v: LobbyView)
      reads this`players, this`state
      ensures v.playerCount == |players| && v.memberIds == players.Keys
    {
      LobbyView(|players|, maxPlayers, players.Keys, state)
    }

    /**
     * `tick`: every seated bot runs its `update`. (Updating a bot twice does no more than once,
     * so this holds even if one bot were seated under two ids.)
     */
    method Tick(now: int)
      modifies bots.Values`ready
      ensures forall b :: b in bots.Values ==> b.ready == (old(b.ready) || b.ReadyDue(now))
    {
      var todo := bots.Keys;
      while todo != {}
        invariant todo <= bots.Keys
        invariant forall b :: b in bots.Values ==> (old(b.ready) ==> b.ready) && (b.ready ==> old(b.ready) || b.ReadyDue(now))
        invariant forall k :: k in bots && k !in todo ==> bots[k].ready == (old(bots[k].ready) || bots[k].ReadyDue(now))
        decreases todo
      {
        var k :| k in todo;
        bots[k].Update(now);
        todo := todo - {k};
      }
    }

    /**
     * `to_dict`, restricted to its count fields and the ids of its player and bot lists (in an
     * order chosen here; the source lists them in insertion order).
     */
    method ToDict() returns (d: LobbySummary)
      ensures d.playerCount == |players| == |d.players| && d.botCount == |bots| == |d.bots|
      ensures Seqs.Lists(d.players, players.Keys) && Seqs.Lists(d.bots, bots.Keys)
      ensures d.lobbyId == lobbyId && d.state == state && d.maxPlayers == maxPlayers && d.maxBots == maxBots
    {
      var ps := Seqs.Enumerate(players.Keys);
      var bs := Seqs.Enumerate(bots.Keys);
      d := LobbySummary(lobbyId, state, GetPlayerCount(), GetBotCount(), maxPlayers, maxBots, ps, bs);
    }
  }

  /** A valid lobby never seats more than its maximum, counting a non-positive maximum as zero. */
  lemma SeatsBounded(l: LobbyContext)
    requires l.Valid()
    ensures l.GetPlayerCount() <= (if l.maxPlayers < 0 then 0 else l.maxPlayers)
    ensures l.GetBotCount() <= (if l.maxBots < 0 then 0 else l.maxBots)
  {
  }

  /**
   * In a valid lobby, `is_full` holds exactly when every seat is taken: the player count has
   * reached a positive maximum, or the maximum allows no seat at all.
   */
  lemma FullMeansNoRoom(l: LobbyContext)
    requires l.Valid()
    ensures l.IsFull() <==> l.maxPlayers <= 0 || l.GetPlayerCount() == l.maxPlayers
  {
  }
}
