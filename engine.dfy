/**
 * The global registry (backend/core/engine.py): lobbies, players, parties and bots keyed by id,
 * one event bus shared with every lobby, the join rules and the permission table. Every join goes
 * through the rules, every change of membership or readiness is announced on the bus.
 */
module Engine {
  import opened Wrappers
  import Events
  import Seqs
  import opened Players
  import opened Bots
  import opened Lobbies
  import Rules
  import Parties
  import Permissions
  import Metrics

  const LobbyCreated := "lobby_created"
  const LobbyDeleted := "lobby_deleted"
  const PlayerJoined := "player_joined"
  const PlayerLeft := "player_left"
  const PlayerReadyChanged := "player_ready_changed"
  const BotJoined := "bot_joined"
  const BotLeft := "bot_left"

  /** `{'lobby_id', 'player_id'}` */
  function PlayerPayload(lobbyId: string, playerId: string): Events.Payload {
    map["lobby_id" := Events.Str(lobbyId), "player_id" := Events.Str(playerId)]
  }

  /** `{'lobby_id', 'bot_id'}` */
  function BotPayload(lobbyId: string, botId: string): Events.Payload {
    map["lobby_id" := Events.Str(lobbyId), "bot_id" := Events.Str(botId)]
  }

  /** `{'lobby_id', 'player_id', 'ready'}` */
  function ReadyPayload(lobbyId: string, playerId: string, ready: bool): Events.Payload {
    map["lobby_id" := Events.Str(lobbyId), "player_id" := Events.Str(playerId), "ready" := Events.Bool(ready)]
  }

  /** The `player_left` records for `ids`, in order. */
  function LeaveRecords(lobbyId: string, ids: seq<string>, now: int): (rs: seq<Events.EventRecord>)
    ensures |rs| == |ids|
    ensures forall i :: 0 <= i < |ids| ==> rs[i] == Events.EventRecord(PlayerLeft, PlayerPayload(lobbyId, ids[i]), now)
  {
    seq(|ids|, i requires 0 <= i < |ids| => Events.EventRecord(PlayerLeft, PlayerPayload(lobbyId, ids[i]), now))
  }

  lemma LeaveRecordsStep(pre: seq<Events.EventRecord>, lobbyId: string, ids: seq<string>, i: nat, now: int)
    requires i < |ids|
    ensures pre + LeaveRecords(lobbyId, ids[..i + 1], now)
         == pre + LeaveRecords(lobbyId, ids[..i], now) + [Events.EventRecord(PlayerLeft, PlayerPayload(lobbyId, ids[i]), now)]
  {
    var a := LeaveRecords(lobbyId, ids[..i + 1], now);
    var b := LeaveRecords(lobbyId, ids[..i], now) + [Events.EventRecord(PlayerLeft, PlayerPayload(lobbyId, ids[i]), now)];
    assert |a| == |b|;
    forall j | 0 <= j < |a| ensures a[j] == b[j] {
      assert ids[..i + 1][j] == ids[j];
      if j < i {
        assert ids[..i][j] == ids[j];
      }
    }
    assert a == b;
    assert pre + b == pre + LeaveRecords(lobbyId, ids[..i], now) + [Events.EventRecord(PlayerLeft, PlayerPayload(lobbyId, ids[i]), now)];
  }

  /** The join rules' view of a player. */
  function CandidateOf(p: Player): Rules.Candidate {
    Rules.Candidate(p.playerId, p.skillRating)
  }

  class LobbyEngine {
    var lobbies: map<string, LobbyContext>
    var players: map<string, Player>
    var parties: map<string, Parties.Party>
    var bots: map<string, Bot>
    const bus: Events.EventBus
    const ruleEngine: Rules.RuleEngine
    const permissionManager: Permissions.PermissionManager

    /**
     * Every map files its entries under their own ids and every lobby announces on the shared
     * bus. (Each lobby's own bounds are kept by `LobbyContext`'s methods, the only code here that
     * changes a lobby's maps.)
     */
    ghost predicate Valid()
      reads this, bus
    {
      && bus.Valid()
      && (this as object) !in {bus} + bus.sinks
      && (forall k :: k in lobbies ==> lobbies[k].lobbyId == k && lobbies[k].bus == bus)
      && (forall k :: k in players ==> players[k].playerId == k)
      && (forall k :: k in bots ==> bots[k].botId == k)
      && (forall k :: k in parties ==> parties[k].partyId == k)
    }

    /** The lobby filed under `lobbyId`, as a frame. */
    ghost function LobbyRef(lobbyId: string): set<LobbyContext>
      reads this
    {
      if lobbyId in lobbies then {lobbies[lobbyId]} else {}
    }

    /** The players seated in the lobby filed under `lobbyId`, as a frame. */
    ghost function SeatedIn(lobbyId: string): set<Player>
      reads this, lobbies.Values
    {
      if lobbyId in lobbies then lobbies[lobbyId].players.Values else {}
    }

    /** Every bot the engine indexes or some lobby seats. */
    ghost function AllBots(): set<Bot>
      reads this, lobbies.Values
    {
      bots.Values + set l, b | l in lobbies.Values && b in l.bots.Values :: b
    }

    constructor ()
      ensures Valid() && fresh(bus) && fresh(ruleEngine) && fresh(permissionManager)
      ensures lobbies == map[] && players == map[] && parties == map[] && bots == map[]
      ensures bus.emitted == [] && bus.listeners == map[]
      ensures ruleEngine.rules == Rules.DefaultRules()
      ensures permissionManager.playerPermissions == map[]
    {
      lobbies := map[];
      players := map[];
      parties := map[];
      bots := map[];
      bus := new Events.EventBus();
      ruleEngine := new Rules.RuleEngine();
      permissionManager := new Permissions.PermissionManager();
      new;
      assert bus.Valid() && bus.sinks == {};
    }

    /**
     * `create_lobby`: files a new empty lobby under the id, replacing any lobby already there
     * (whose players stay indexed), and announces it.
     */
    method CreateLobby(lobbyId: string, config: LobbyConfig, now: int) returns (lobby: LobbyContext)
      requires Valid()
      modifies this`lobbies, bus, bus.sinks
      ensures Valid() && fresh(lobby)
      ensures lobbies == old(lobbies)[lobbyId := lobby]
      ensures lobby.lobbyId == lobbyId && lobby.config == config && lobby.players == map[] && lobby.bots == map[]
      ensures lobby.state == Waiting && lobby.bus == bus && lobby.maxPlayers == config.maxPlayers.GetOr(10)
      ensures players == old(players) && bots == old(bots)
      ensures bus.listeners == old(bus.listeners) && bus.sinks == old(bus.sinks)
      ensures bus.emitted == old(bus.emitted) + [Events.EventRecord(LobbyCreated, LobbyPayload(lobbyId), now)]
    {
      lobby := new LobbyContext(lobbyId, config, bus, now);
      lobbies := lobbies[lobbyId := lobby];
      Announce(LobbyCreated, LobbyPayload(lobbyId), now);
    }

    function GetLobby(lobbyId: string): (r: Option<LobbyContext>)
      reads this`lobbies
      ensures r.Some? <==> lobbyId in lobbies
      ensures r.Some? ==> r.value == lobbies[lobbyId]
    {
      if lobbyId in lobbies then Some(lobbies[lobbyId]) else None
    }

    /**
     * Emits one record on the shared bus: it joins the history (capped), every listener of
     * `name` is called in order, and each analytics counter is bumped once per subscription.
     */
    method Announce(name: string, data: Events.Payload, now: int)
      requires bus.Valid()
      modifies bus, bus.sinks
      ensures bus.Valid() && bus.listeners == old(bus.listeners) && bus.sinks == old(bus.sinks)
      ensures bus.clearedAt == old(bus.clearedAt)
      ensures bus.emitted == old(bus.emitted) + [Events.EventRecord(name, data, now)]
      ensures bus.history == if |old(bus.history)| < bus.maxHistory then old(bus.history) + [Events.EventRecord(name, data, now)]
                             else old(bus.history)[1..] + [Events.EventRecord(name, data, now)]
      ensures bus.deliveries == old(bus.deliveries) + Events.DeliveriesOf(bus.ListenersOf(name), Events.EventRecord(name, data, now))
      ensures forall c :: c in bus.sinks ==>
        && c.eventCounts == Metrics.Bump(old(c.eventCounts), name, Events.Occurrences(c, bus.ListenersOf(name)))
        && c.metrics == Metrics.Bump(old(c.metrics), Metrics.TotalEvents, Events.Occurrences(c, bus.ListenersOf(name)))
    {
      bus.Emit(name, data, now);
    }

    /** Runs the join rules; how they run is stated by `RuleEngine.CanJoin`. */
    method Admit(v: LobbyView, p: Rules.Candidate) returns (ok: bool)
      ensures ok == Rules.Admits(ruleEngine.rules, v, p)
    {
      var admitted, _ := ruleEngine.CanJoin(v, p);
      ok := admitted;
    }

    /**
     * `add_player_to_lobby`: false, with nothing changed and nothing emitted, when the lobby is
     * unknown or the rules refuse. Otherwise the lobby's `add_player` runs (a no-op when full,
     * which the default rules rule out), the engine indexes the player, and `player_joined` is
     * emitted once.
     */
    method AddPlayerToLobby(lobbyId: string, player: Player, now: int) returns (ok: bool)
      requires Valid()
      modifies this`players, LobbyRef(lobbyId)`players, player`lobbyId, bus, bus.sinks
      ensures Valid() && bus.listeners == old(bus.listeners) && bus.sinks == old(bus.sinks)
      ensures lobbyId !in lobbies ==> !ok
      ensures lobbyId in lobbies ==>
        ok == Rules.Admits(ruleEngine.rules, old(lobbies[lobbyId].View()), CandidateOf(player))
      ensures !ok ==> players == old(players) && bus.emitted == old(bus.emitted)
                      && player.lobbyId == old(player.lobbyId)
                      && (lobbyId in lobbies ==> lobbies[lobbyId].players == old(lobbies[lobbyId].players))
      ensures ok ==>
        && players == old(players)[player.playerId := player]
        && bus.emitted == old(bus.emitted) + [Events.EventRecord(PlayerJoined, PlayerPayload(lobbyId, player.playerId), now)]
        && lobbies[lobbyId].players ==
             (if |old(lobbies[lobbyId].players)| < lobbies[lobbyId].maxPlayers
              then old(lobbies[lobbyId].players)[player.playerId := player]
              else old(lobbies[lobbyId].players))
        && player.lobbyId == if |old(lobbies[lobbyId].players)| < lobbies[lobbyId].maxPlayers then Some(lobbyId) else old(player.lobbyId)
    {
      ok := false;
      var lookup := GetLobby(lobbyId);
      if lookup.Some? {
        var lobby := lookup.value;
        var admitted := Admit(lobby.View(), CandidateOf(player));
        if admitted {
          lobby.AddPlayer(player);
          players := players[player.playerId := player];
          Announce(PlayerJoined, PlayerPayload(lobbyId, player.playerId), now);
          ok := true;
        }
      }
    }

    /**
     * `remove_player_from_lobby`: for a player seated in a known lobby, unseats it, drops it from
     * the index and emits `player_left`; in every other case nothing changes, so a second call
     * is a no-op.
     */
    method RemovePlayerFromLobby(lobbyId: string, playerId: string, now: int)
      requires Valid()
      modifies this`players, LobbyRef(lobbyId)`players, bus, bus.sinks
      ensures Valid() && bus.listeners == old(bus.listeners) && bus.sinks == old(bus.sinks)
      ensures lobbyId in lobbies && playerId in old(lobbies[lobbyId].players) ==>
        && lobbies[lobbyId].players == old(lobbies[lobbyId].players) - {playerId}
        && players == old(players) - {playerId}
        && bus.emitted == old(bus.emitted) + [Events.EventRecord(PlayerLeft, PlayerPayload(lobbyId, playerId), now)]
      ensures !(lobbyId in lobbies && playerId in old(lobbies[lobbyId].players)) ==>
        && (lobbyId in lobbies ==> lobbies[lobbyId].players == old(lobbies[lobbyId].players))
        && players == old(players)
        && bus.emitted == old(bus.emitted)
      ensures lobbies == old(lobbies)
      ensures forall l :: l in lobbies && l != lobbyId ==> lobbies[l].players == old(lobbies[l].players)
    {
      var lookup := GetLobby(lobbyId);
      if lookup.Some? && playerId in lookup.value.players {
        Unseat(lobbyId, playerId, now);
      }
    }

    /** The branch of `remove_player_from_lobby` taken for a player seated in a known lobby. */
    method Unseat(lobbyId: string, playerId: string, now: int)
      requires Valid() && lobbyId in lobbies && playerId in lobbies[lobbyId].players
      modifies this`players, LobbyRef(lobbyId)`players, bus, bus.sinks
      ensures Valid() && bus.listeners == old(bus.listeners) && bus.sinks == old(bus.sinks)
      ensures lobbies[lobbyId].players == old(lobbies[lobbyId].players) - {playerId}
      ensures players == old(players) - {playerId}
      ensures bus.emitted == old(bus.emitted) + [Events.EventRecord(PlayerLeft, PlayerPayload(lobbyId, playerId), now)]
    {
      var lobby := lobbies[lobbyId];
      lobby.RemovePlayer(playerId);
      if playerId in players {
        players := players - {playerId};
      }
      assert (lobby as object) !in {bus} + bus.sinks;
      Announce(PlayerLeft, PlayerPayload(lobbyId, playerId), now);
    }

    /**
     * `set_player_ready`: for a player seated in a known lobby, the lobby sets the flag (and may
     * emit `lobby_all_ready`), then `player_ready_changed` is emitted; otherwise nothing happens.
     */
    method SetPlayerReady(lobbyId: string, playerId: string, ready: bool, now: int)
      requires Valid()
      modifies LobbyRef(lobbyId)`state, SeatedIn(lobbyId)`ready, bus, bus.sinks
      ensures Valid() && bus.listeners == old(bus.listeners) && bus.sinks == old(bus.sinks)
      ensures !(lobbyId in lobbies && playerId in lobbies[lobbyId].players) ==> bus.emitted == old(bus.emitted)
      ensures lobbyId in lobbies && playerId in lobbies[lobbyId].players ==>
        var lobby := lobbies[lobbyId];
        && (forall p :: p in lobby.players.Values ==>
              p.ready == if p == lobby.players[playerId] then ready else old(p.ready))
        && lobby.state == (if lobby.ReadyToGo() then Ready else old(lobby.state))
        && bus.emitted == old(bus.emitted)
             + (if lobby.ReadyToGo() then [Events.EventRecord(AllReadyEvent, LobbyPayload(lobbyId), now)] else [])
             + [Events.EventRecord(PlayerReadyChanged, ReadyPayload(lobbyId, playerId, ready), now)]
    {
      var lookup := GetLobby(lobbyId);
      if lookup.Some? && playerId in lookup.value.players {
        var lobby := lookup.value;
        lobby.SetPlayerReady(playerId, ready, now);
        Announce(PlayerReadyChanged, ReadyPayload(lobbyId, playerId, ready), now);
      }
    }

    /**
     * `add_bot_to_lobby`: false, with nothing changed, only for an unknown lobby. Otherwise the
     * lobby's `add_bot` runs (a no-op when full), yet the engine indexes the bot and emits
     * `bot_joined` either way.
     */
    method AddBotToLobby(lobbyId: string, bot: Bot, now: int) returns (ok: bool)
      requires Valid()
      modifies this`bots, LobbyRef(lobbyId)`bots, bot`lobbyId, bus, bus.sinks
      ensures Valid() && bus.listeners == old(bus.listeners) && bus.sinks == old(bus.sinks)
      ensures ok <==> lobbyId in lobbies
      ensures !ok ==> bots == old(bots) && bus.emitted == old(bus.emitted) && bot.lobbyId == old(bot.lobbyId)
      ensures ok ==>
        && bots == old(bots)[bot.botId := bot]
        && bus.emitted == old(bus.emitted) + [Events.EventRecord(BotJoined, BotPayload(lobbyId, bot.botId), now)]
        && lobbies[lobbyId].bots ==
             (if |old(lobbies[lobbyId].bots)| < lobbies[lobbyId].maxBots
              then old(lobbies[lobbyId].bots)[bot.botId := bot]
              else old(lobbies[lobbyId].bots))
        && bot.lobbyId == if |old(lobbies[lobbyId].bots)| < lobbies[lobbyId].maxBots then Some(lobbyId) else old(bot.lobbyId)
    {
      ok := false;
      var lookup := GetLobby(lobbyId);
      if lookup.Some? {
        var lobby := lookup.value;
        lobby.AddBot(bot);
        bots := bots[bot.botId := bot];
        Announce(BotJoined, BotPayload(lobbyId, bot.botId), now);
        ok := true;
      }
    }

    /**
     * `remove_bot_from_lobby`: for a bot seated in a known lobby, unseats it, drops it from the
     * index and emits `bot_left`; in every other case nothing changes.
     */
    method RemoveBotFromLobby(lobbyId: string, botId: string, now: int)
      requires Valid()
      modifies this`bots, LobbyRef(lobbyId)`bots, bus, bus.sinks
      ensures Valid() && bus.listeners == old(bus.listeners) && bus.sinks == old(bus.sinks)
      ensures lobbyId in lobbies && botId in old(lobbies[lobbyId].bots) ==>
        && lobbies[lobbyId].bots == old(lobbies[lobbyId].bots) - {botId}
        && bots == old(bots) - {botId}
        && bus.emitted == old(bus.emitted) + [Events.EventRecord(BotLeft, BotPayload(lobbyId, botId), now)]
      ensures !(lobbyId in lobbies && botId in old(lobbies[lobbyId].bots)) ==>
        && (lobbyId in lobbies ==> lobbies[lobbyId].bots == old(lobbies[lobbyId].bots))
        && bots == old(bots)
        && bus.emitted == old(bus.emitted)
    {
      var lookup := GetLobby(lobbyId);
      if lookup.Some? && botId in lookup.value.bots {
        var lobby := lookup.value;
        lobby.RemoveBot(botId);
        if botId in bots {
          bots := bots - {botId};
        }
        assert (lobby as object) !in {bus} + bus.sinks;
        Announce(BotLeft, BotPayload(lobbyId, botId), now);
      }
    }

    /** `create_party`: files a new one-member party, replacing any party already under the id. */
    method CreateParty(partyId: string, leaderId: string, now: int) returns (party: Parties.Party)
      requires Valid()
      modifies this`parties
      ensures Valid() && fresh(party) && party.Valid()
      ensures parties == old(parties)[partyId := party]
      ensures party.partyId == partyId && party.leaderId == leaderId && party.order == [leaderId]
    {
      party := new Parties.Party(partyId, leaderId, now);
      parties := parties[partyId := party];
    }

    function GetPlayer(playerId: string): (r: Option<Player>)
      reads this`players
      ensures r.Some? <==> playerId in players
      ensures r.Some? ==> r.value == players[playerId]
    {
      if playerId in players then Some(players[playerId]) else None
    }

    /**
     * `delete_lobby`: for a known lobby, every seated player leaves through
     * `remove_player_from_lobby` (one `player_left` each, in the order of the ghost `order`), the
     * lobby is dropped and `lobby_deleted` emitted. Its bots are neither unseated nor dropped from
     * the bot index. An unknown id changes nothing.
     */
    method DeleteLobby(lobbyId: string, now: int) returns (ghost order: seq<string>)
      requires Valid()
      modifies this`lobbies, this`players, LobbyRef(lobbyId)`players, bus, bus.sinks
      ensures Valid() && bus.listeners == old(bus.listeners) && bus.sinks == old(bus.sinks)
      ensures bots == old(bots)
      ensures lobbyId !in old(lobbies) ==>
        lobbies == old(lobbies) && players == old(players) && bus.emitted == old(bus.emitted)
      ensures lobbyId in old(lobbies) ==>
        && Seqs.Lists(order, old(lobbies[lobbyId].players).Keys)
        && lobbies == old(lobbies) - {lobbyId}
        && old(lobbies[lobbyId]).players == map[]
        && players == old(players) - old(lobbies[lobbyId].players).Keys
        && bus.emitted == old(bus.emitted) + LeaveRecords(lobbyId, order, now)
                          + [Events.EventRecord(LobbyDeleted, LobbyPayload(lobbyId), now)]
    {
      order := [];
      if lobbyId in lobbies {
        order := RemoveAll(lobbyId, now);
        lobbies := lobbies - {lobbyId};
        Announce(LobbyDeleted, LobbyPayload(lobbyId), now);
      }
    }

    /**
     * The loop of `delete_lobby`: `remove_player_from_lobby` for each player seated in the lobby,
     * in the order of the ghost `order`; each of them is seated when its turn comes, so each call
     * takes the `Unseat` branch.
     */
    method RemoveAll(lobbyId: string, now: int) returns (ghost order: seq<string>)
      requires Valid() && lobbyId in lobbies
      modifies this`players, LobbyRef(lobbyId)`players, bus, bus.sinks
      ensures Valid() && bus.listeners == old(bus.listeners) && bus.sinks == old(bus.sinks)
      ensures Seqs.Lists(order, old(lobbies[lobbyId].players).Keys)
      ensures lobbies[lobbyId].players == map[]
      ensures players == old(players) - old(lobbies[lobbyId].players).Keys
      ensures bus.emitted == old(bus.emitted) + LeaveRecords(lobbyId, order, now)
    {
      var lobby := lobbies[lobbyId];
      var ids := Seqs.Enumerate(lobby.players.Keys);
      ghost var seated := lobby.players;
      var i := 0;
      while i < |ids|
        invariant 0 <= i <= |ids|
        invariant Valid() && bus.listeners == old(bus.listeners) && bus.sinks == old(bus.sinks)
        invariant lobbies[lobbyId] == lobby
        invariant lobby.players == seated - Seqs.Elems(ids[..i])
        invariant players == old(players) - Seqs.Elems(ids[..i])
        invariant bus.emitted == old(bus.emitted) + LeaveRecords(lobbyId, ids[..i], now)
      {
        Seqs.DistinctNotBefore(ids, i);
        Seqs.PrefixElemsStep(ids, i);
        LeaveRecordsStep(old(bus.emitted), lobbyId, ids, i, now);
        Seqs.MinusStep(seated, Seqs.Elems(ids[..i]), ids[i]);
        Seqs.MinusStep(old(players), Seqs.Elems(ids[..i]), ids[i]);
        assert ids[i] in lobby.players;
        ghost var p0, l0, e0 := players, lobby.players, bus.emitted;
        Unseat(lobbyId, ids[i], now);
        assert lobby.players == l0 - {ids[i]};
        assert players == p0 - {ids[i]};
        assert bus.emitted == e0 + [Events.EventRecord(PlayerLeft, PlayerPayload(lobbyId, ids[i]), now)];
        i := i + 1;
      }
      Seqs.ListsElems(ids, seated.Keys);
      assert ids[..i] == ids;
      order := ids;
    }

    /**
     * `tick`: every lobby runs its `tick` (each seated bot's `update`), then every indexed bot
     * runs its own `tick`. Updating is idempotent, so a bot reached both ways ends up the same.
     */
    method Tick(now: int)
      requires Valid()
      modifies AllBots()`ready, bots.Values`lastAction
      ensures forall b :: b in AllBots() ==> b.ready == (old(b.ready) || b.ReadyDue(now))
      ensures forall k :: k in bots ==>
        bots[k].lastAction == NextAction(bots[k].behavior, old(bots[k].lastAction), now)
    {
      TickLobbies(now);
      TickBots(now);
    }

    /** The first half of `tick`: every lobby's bots update. */
    method TickLobbies(now: int)
      modifies AllBots()`ready
      ensures forall b :: b in AllBots() ==> (old(b.ready) ==> b.ready) && (b.ready ==> old(b.ready) || b.ReadyDue(now))
      ensures forall l, b :: l in lobbies.Values && b in l.bots.Values ==> b.ready == (old(b.ready) || b.ReadyDue(now))
    {
      var todo := lobbies.Values;
      while todo != {}
        invariant todo <= lobbies.Values
        invariant forall b :: b in AllBots() ==>
          (old(b.ready) ==> b.ready) && (b.ready ==> old(b.ready) || b.ReadyDue(now))
        invariant forall l, b :: l in lobbies.Values && l !in todo && b in l.bots.Values ==>
          b.ready == (old(b.ready) || b.ReadyDue(now))
        decreases todo
      {
        var l :| l in todo;
        l.Tick(now);
        todo := todo - {l};
      }
    }

    /** The second half of `tick`: every indexed bot ticks once. */
    method TickBots(now: int)
      requires Valid()
      modifies bots.Values`ready, bots.Values`lastAction
      ensures forall k :: k in bots ==>
        && bots[k].ready == (old(bots[k].ready) || bots[k].ReadyDue(now))
        && bots[k].lastAction == NextAction(bots[k].behavior, old(bots[k].lastAction), now)
    {
      var pending := bots.Keys;
      while pending != {}
        invariant pending <= bots.Keys
        invariant forall k :: k in bots && k !in pending ==>
          && bots[k].ready == (old(bots[k].ready) || bots[k].ReadyDue(now))
          && bots[k].lastAction == NextAction(bots[k].behavior, old(bots[k].lastAction), now)
        invariant forall k :: k in pending ==>
          bots[k].ready == old(bots[k].ready) && bots[k].lastAction == old(bots[k].lastAction)
        decreases pending
      {
        var k :| k in pending;
        bots[k].Tick(now);
        pending := pending - {k};
      }
    }

    /** `get_all_lobbies`: one summary per lobby, each lobby once. */
    method GetAllLobbies() returns (r: seq<LobbySummary>)
      requires Valid()
      ensures |r| == |lobbies|
      ensures forall i, j :: 0 <= i < j < |r| ==> r[i].lobbyId != r[j].lobbyId
      ensures forall id :: id in lobbies ==> exists i :: 0 <= i < |r| && r[i].lobbyId == id
      ensures forall i :: 0 <= i < |r| ==>
        && r[i].lobbyId in lobbies
        && r[i].playerCount == |lobbies[r[i].lobbyId].players|
        && r[i].botCount == |lobbies[r[i].lobbyId].bots|
        && r[i].state == lobbies[r[i].lobbyId].state
    {
      var ids := Seqs.Enumerate(lobbies.Keys);
      r := [];
      var i := 0;
      while i < |ids|
        invariant 0 <= i <= |ids| && |r| == i
        invariant forall j :: 0 <= j < i ==>
          && r[j].lobbyId == ids[j]
          && r[j].playerCount == |lobbies[ids[j]].players|
          && r[j].botCount == |lobbies[ids[j]].bots|
          && r[j].state == lobbies[ids[j]].state
      {
        var d := lobbies[ids[i]].ToDict();
        r := r + [d];
        i := i + 1;
      }
      forall id | id in lobbies
        ensures exists i :: 0 <= i < |r| && r[i].lobbyId == id
      {
        var i :| 0 <= i < |ids| && ids[i] == id;
        assert r[i].lobbyId == id;
      }
    }

    /** `get_all_players`: every indexed player, once each. */
    method GetAllPlayers() returns (r: seq<Player>)
      requires Valid()
      ensures |r| == |players|
      ensures forall p :: p in r <==> p in players.Values
    {
      var ids := Seqs.Enumerate(players.Keys);
      r := [];
      var i := 0;
      while i < |ids|
        invariant 0 <= i <= |ids| && |r| == i
        invariant forall j :: 0 <= j < i ==> r[j] == players[ids[j]]
      {
        r := r + [players[ids[i]]];
        i := i + 1;
      }
      forall p | p in players.Values ensures p in r {
        var k :| k in players && players[k] == p;
        var j :| 0 <= j < |ids| && ids[j] == k;
        assert r[j] == p;
      }
    }
  }
}
