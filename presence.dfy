/**
 * The presence service: a periodic sweep that marks players whose heartbeat is too old as
 * disconnected, unseats them from the lobby they were in and announces `player_disconnected`.
 * Timestamps are milliseconds; the 30-second timeout is 30000.
 */
module Presence {
  import opened Wrappers
  import Events
  import Seqs
  import opened Players
  import Engine
  import Lobbies
  import Metrics

  const Timeout := 30000
  const PlayerDisconnected := "player_disconnected"

  /** One entry of `disconnected_players`: the id and the lobby id read when the player was found stale. */
  datatype Departure = Departure(playerId: string, lobbyId: Option<string>)

  /** A Python-truthy lobby id: present and not the empty string. */
  predicate InLobby(lobbyId: Option<string>) {
    lobbyId.Some? && lobbyId.value != ""
  }

  /** The player ids of `gone`, in order. */
  function IdsOf(gone: seq<Departure>): (r: seq<string>)
    ensures |r| == |gone|
  {
    if gone == [] then [] else IdsOf(gone[..|gone| - 1]) + [gone[|gone| - 1].playerId]
  }

  lemma {:induction false} IdsOfAt(gone: seq<Departure>)
    ensures forall j :: 0 <= j < |gone| ==> IdsOf(gone)[j] == gone[j].playerId
  {
    if gone != [] {
      IdsOfAt(gone[..|gone| - 1]);
    }
  }

  /** The lobby id that `d` names, or "" (which is then never looked up). */
  function LobbyIdOf(d: Departure): string {
    if d.lobbyId.Some? then d.lobbyId.value else ""
  }

  /** Whether the departing player was seated in the lobby it names, by the seat map `seated`. */
  predicate SeatedBy(d: Departure, seated: map<string, set<string>>) {
    InLobby(d.lobbyId) && d.lobbyId.value in seated && d.playerId in seated[d.lobbyId.value]
  }

  /**
   * What the second loop emits for one departure: nothing for a falsy lobby id; otherwise the
   * `player_left` of the removal when the player was seated there, then `player_disconnected`.
   */
  function Announcements(d: Departure, sits: bool, now: int): (r: seq<Events.EventRecord>)
    ensures !InLobby(d.lobbyId) ==> r == []
    ensures InLobby(d.lobbyId) ==>
      && |r| == (if sits then 2 else 1)
      && r[|r| - 1] == Events.EventRecord(PlayerDisconnected, Engine.PlayerPayload(d.lobbyId.value, d.playerId), now)
      && (sits ==> r[0] == Events.EventRecord(Engine.PlayerLeft, Engine.PlayerPayload(d.lobbyId.value, d.playerId), now))
  {
    if !InLobby(d.lobbyId) then []
    else
      var lid := d.lobbyId.value;
      (if sits then [Events.EventRecord(Engine.PlayerLeft, Engine.PlayerPayload(lid, d.playerId), now)] else [])
      + [Events.EventRecord(PlayerDisconnected, Engine.PlayerPayload(lid, d.playerId), now)]
  }

  /** Everything the second loop emits over `gone`, given the seats when the sweep began. */
  function Disconnects(gone: seq<Departure>, seated: map<string, set<string>>, now: int): seq<Events.EventRecord> {
    if gone == [] then []
    else
      var d := gone[|gone| - 1];
      Disconnects(gone[..|gone| - 1], seated, now) + Announcements(d, SeatedBy(d, seated), now)
  }

  /** The players the second loop unseats (and so drops from the engine's index). */
  function Removed(gone: seq<Departure>, seated: map<string, set<string>>): set<string> {
    set j | 0 <= j < |gone| && SeatedBy(gone[j], seated) :: gone[j].playerId
  }

  /** The players the second loop unseats from the lobby `l`. */
  function UnseatedFrom(gone: seq<Departure>, seated: map<string, set<string>>, l: string): set<string> {
    set j | 0 <= j < |gone| && SeatedBy(gone[j], seated) && LobbyIdOf(gone[j]) == l :: gone[j].playerId
  }

  /**
   * One more departure unseats its player from the lobby it names, when it sat there; every
   * lobby's roster `r0` minus the players unseated so far moves on by that one removal.
   */
  lemma UnseatedStep(gone: seq<Departure>, i: nat, seated: map<string, set<string>>, l: string,
                     r: map<string, Player>, r0: map<string, Player>)
    requires i < |gone| && r == r0 - UnseatedFrom(gone[..i], seated, l)
    ensures r - (if SeatedBy(gone[i], seated) && LobbyIdOf(gone[i]) == l then {gone[i].playerId} else {})
      == r0 - UnseatedFrom(gone[..i + 1], seated, l)
  {
    var mine: set<string> := if SeatedBy(gone[i], seated) && LobbyIdOf(gone[i]) == l then {gone[i].playerId} else {};
    assert gone[..i + 1][..i] == gone[..i];
    assert UnseatedFrom(gone[..i + 1], seated, l) == UnseatedFrom(gone[..i], seated, l) + mine;
    Seqs.MinusSets(r0, UnseatedFrom(gone[..i], seated, l), mine);
  }

  /** The rosters `r` after `d` leaves: its player is dropped from the lobby it names, when it sat there. */
  function Unseat(r: map<string, map<string, Player>>, d: Departure, seated: map<string, set<string>>): (r': map<string, map<string, Player>>)
    ensures r'.Keys == r.Keys
    ensures forall l :: l in r && l != LobbyIdOf(d) ==> r'[l] == r[l]
    ensures LobbyIdOf(d) in r ==> r'[LobbyIdOf(d)] == r[LobbyIdOf(d)] - (if SeatedBy(d, seated) then {d.playerId} else {})
  {
    var l := LobbyIdOf(d);
    if l in r then r[l := r[l] - (if SeatedBy(d, seated) then {d.playerId} else {})] else r
  }

  /** Every roster of `r` is its roster in `r0` minus the players the first `i` departures unseat. */
  ghost predicate UnseatedAt(r: map<string, map<string, Player>>, gone: seq<Departure>, i: nat,
                             seated: map<string, set<string>>, r0: map<string, map<string, Player>>)
  {
    && i <= |gone| && r.Keys == r0.Keys
    && (forall l :: l in r ==> r[l] == r0[l] - UnseatedFrom(gone[..i], seated, l))
  }

  /** One more departure moves every roster on by its own removal. */
  lemma UnseatStep(r: map<string, map<string, Player>>, gone: seq<Departure>, i: nat,
                   seated: map<string, set<string>>, r0: map<string, map<string, Player>>)
    requires i < |gone| && UnseatedAt(r, gone, i, seated, r0)
    ensures UnseatedAt(Unseat(r, gone[i], seated), gone, i + 1, seated, r0)
  {
    var r' := Unseat(r, gone[i], seated);
    forall l | l in r'
      ensures r'[l] == r0[l] - UnseatedFrom(gone[..i + 1], seated, l)
    {
      UnseatedStep(gone, i, seated, l, r[l], r0[l]);
    }
  }

  /** A lobby only loses players that the sweep unseats, so only departing ones. */
  lemma UnseatedDeparted(gone: seq<Departure>, seated: map<string, set<string>>, l: string)
    ensures UnseatedFrom(gone, seated, l) <= Removed(gone, seated)
  {
  }

  /** Unseating only ever concerns departing players. */
  lemma RemovedDeparted(gone: seq<Departure>, seated: map<string, set<string>>)
    ensures Removed(gone, seated) <= Seqs.Elems(IdsOf(gone))
  {
    IdsOfAt(gone);
  }

  /** One `player_disconnected` per departing player with a truthy lobby id, whether or not it still sat there. */
  lemma {:induction false} DisconnectCount(gone: seq<Departure>, seated: map<string, set<string>>, now: int)
    ensures |Disconnects(gone, seated, now)| == Truthy(gone) + |Sitting(gone, seated)|
  {
    if gone != [] {
      DisconnectCount(gone[..|gone| - 1], seated, now);
    }
  }

  /** How many departures carry a truthy lobby id. */
  function Truthy(gone: seq<Departure>): nat {
    if gone == [] then 0 else Truthy(gone[..|gone| - 1]) + (if InLobby(gone[|gone| - 1].lobbyId) then 1 else 0)
  }

  /** The departures that were seated, in order. */
  function Sitting(gone: seq<Departure>, seated: map<string, set<string>>): seq<Departure> {
    if gone == [] then []
    else Sitting(gone[..|gone| - 1], seated) + (if SeatedBy(gone[|gone| - 1], seated) then [gone[|gone| - 1]] else [])
  }

  /** Appending a departure for a new id keeps `IdsOf` listing the ids taken so far. */
  lemma GoneStep(gone: seq<Departure>, taken: set<string>, d: Departure)
    requires Seqs.Lists(IdsOf(gone), taken) && d.playerId !in taken
    ensures Seqs.Lists(IdsOf(gone + [d]), taken + {d.playerId})
  {
    assert (gone + [d])[..|gone|] == gone;
    Seqs.AppendLists(IdsOf(gone), taken, d.playerId);
  }

  /** Extending the prefix by one departure extends what the second loop emits and removes. */
  lemma DisconnectStep(gone: seq<Departure>, i: nat, seated: map<string, set<string>>, now: int,
                       p0: map<string, Player>, p1: map<string, Player>)
    requires i < |gone| && p1 == p0 - Removed(gone[..i], seated)
    ensures Disconnects(gone[..i + 1], seated, now) == Disconnects(gone[..i], seated, now) + Announcements(gone[i], SeatedBy(gone[i], seated), now)
    ensures p1 - (if SeatedBy(gone[i], seated) then {gone[i].playerId} else {}) == p0 - Removed(gone[..i + 1], seated)
  {
    assert gone[..i + 1][..i] == gone[..i];
    assert Removed(gone[..i + 1], seated) == Removed(gone[..i], seated) + (if SeatedBy(gone[i], seated) then {gone[i].playerId} else {});
    Seqs.MinusSets(p0, Removed(gone[..i], seated), if SeatedBy(gone[i], seated) then {gone[i].playerId} else {});
  }

  class PresenceService {
    const engine: Engine.LobbyEngine
    /** A 10-second sweep period (used only by the sweep thread). */
    const checkInterval := 10000
    const timeout := Timeout

    /** `__init__` */
    constructor (engine: Engine.LobbyEngine)
      ensures this.engine == engine
    {
      this.engine := engine;
    }

    /** Every indexed player is filed under its own id (part of the engine's invariant). */
    ghost predicate Indexed()
      reads engine`players
    {
      forall k :: k in engine.players ==> engine.players[k].playerId == k
    }

    /** The indexed players whose heartbeat is at least `timeout` old. */
    ghost function StaleIds(now: int): set<string>
      reads engine`players, engine.players.Values`lastHeartbeat
    {
      set k | k in engine.players && !engine.players[k].IsAlive(timeout, now)
    }

    /** Who sits in every lobby, by lobby id. */
    ghost function Seats(): map<string, set<string>>
      reads engine`lobbies, engine.lobbies.Values`players
    {
      map l | l in engine.lobbies :: engine.lobbies[l].players.Keys
    }

    /** The seated players of every lobby, by lobby id. */
    ghost function Rosters(): map<string, map<string, Player>>
      reads engine`lobbies, engine.lobbies.Values`players
    {
      map l | l in engine.lobbies :: engine.lobbies[l].players
    }

    /** Whether `d`'s player currently sits in the lobby it names. */
    ghost predicate Sits(d: Departure)
      reads engine`lobbies, engine.lobbies.Values`players
    {
      InLobby(d.lobbyId) && d.lobbyId.value in engine.lobbies && d.playerId in engine.lobbies[d.lobbyId.value].players
    }

    /**
     * `_check_player_presence`: the stale players are collected (and marked disconnected) before
     * any of them is removed, then each one with a truthy lobby id is unseated and announced.
     */
    method CheckPlayerPresence(now: int) returns (ghost gone: seq<Departure>)
      requires engine.Valid()
      modifies engine.players.Values`connected, engine`players, engine.lobbies.Values`players, engine.bus, engine.bus.sinks
      ensures engine.Valid() && engine.bus.listeners == old(engine.bus.listeners) && engine.bus.sinks == old(engine.bus.sinks)
      ensures Seqs.Lists(IdsOf(gone), old(StaleIds(now)))
      ensures forall j :: 0 <= j < |gone| ==>
        gone[j].playerId in old(engine.players) && gone[j].lobbyId == old(engine.players[gone[j].playerId].lobbyId)
      ensures forall k :: k in old(engine.players) ==>
        old(engine.players[k]).connected == (old(engine.players[k].connected) && old(engine.players[k].IsAlive(timeout, now)))
      ensures engine.bus.emitted == old(engine.bus.emitted) + Disconnects(gone, old(Seats()), now)
      ensures engine.players == old(engine.players) - Removed(gone, old(Seats()))
      ensures engine.lobbies == old(engine.lobbies)
      ensures forall l :: l in engine.lobbies ==>
        engine.lobbies[l].players == old(engine.lobbies[l].players) - UnseatedFrom(gone, old(Seats()), l)
    {
      var found := MarkStale(now);
      Disconnect(found, now);
      gone := found;
    }

    /** The first loop of `_check_player_presence`: collect and mark, without touching any map. */
    method MarkStale(now: int) returns (gone: seq<Departure>)
      requires Indexed()
      modifies engine.players.Values`connected
      ensures Seqs.Lists(IdsOf(gone), StaleIds(now))
      ensures forall j :: 0 <= j < |gone| ==>
        gone[j].playerId in engine.players && gone[j].lobbyId == engine.players[gone[j].playerId].lobbyId
      ensures forall k :: k in engine.players ==>
        engine.players[k].connected == (old(engine.players[k].connected) && engine.players[k].IsAlive(timeout, now))
      ensures unchanged(engine, engine.bus) && Seats() == old(Seats()) && Rosters() == old(Rosters())
      ensures old(engine.Valid()) ==> engine.Valid()
    {
      var players := engine.players;
      ghost var stale := StaleIds(now);
      ghost var taken: set<string> := {};
      var pending := players.Keys;
      gone := [];
      while pending != {}
        invariant pending <= players.Keys
        invariant taken == stale - pending && Seqs.Lists(IdsOf(gone), taken)
        invariant forall j :: 0 <= j < |gone| ==> gone[j].playerId in players && gone[j].lobbyId == players[gone[j].playerId].lobbyId
        invariant forall k :: k in players ==>
          players[k].connected == (old(players[k].connected) && (k !in pending ==> k !in stale))
        decreases pending
      {
        var k :| k in pending;
        var player := players[k];
        if !player.IsAlive(timeout, now) {
          GoneStep(gone, taken, Departure(k, player.lobbyId));
          taken := taken + {k};
          gone := gone + [Departure(k, player.lobbyId)];
          assert forall k' :: k' in players && k' != k ==> players[k'] != player;
          player.connected := false;
        }
        pending := pending - {k};
      }
      assert StaleIds(now) == stale;
    }

    /** Progress of the second loop after the departures `done`, from the bus and index `e0`, `p0`, `seats0`. */
    ghost predicate Disconnecting(gone: seq<Departure>, i: nat, seats0: map<string, set<string>>, now: int,
                                  e0: seq<Events.EventRecord>, p0: map<string, Player>,
                                  listeners: map<string, seq<Events.Listener>>, sinks: set<Metrics.Counters>)
      reads engine, engine.bus, engine.lobbies.Values
    {
      && engine.Valid() && i <= |gone|
      && engine.bus.listeners == listeners && engine.bus.sinks == sinks
      && engine.bus.emitted == e0 + Disconnects(gone[..i], seats0, now)
      && engine.players == p0 - Removed(gone[..i], seats0)
      && (forall j :: i <= j < |gone| ==> (Sits(gone[j]) <==> SeatedBy(gone[j], seats0)))
    }

    /** Every lobby has lost, from its roster in `r0`, the players the first `i` departures unseat. */
    ghost predicate Unseating(gone: seq<Departure>, i: nat, seats0: map<string, set<string>>, r0: map<string, map<string, Player>>)
      reads engine`lobbies, engine.lobbies.Values`players
    {
      UnseatedAt(Rosters(), gone, i, seats0, r0)
    }

    /** Progress of the second loop on the bus, the index and the rosters, with the lobby map fixed at `lobbies0`. */
    ghost predicate Progress(gone: seq<Departure>, i: nat, seats0: map<string, set<string>>, now: int,
                             e0: seq<Events.EventRecord>, p0: map<string, Player>, r0: map<string, map<string, Player>>,
                             listeners: map<string, seq<Events.Listener>>, sinks: set<Metrics.Counters>,
                             lobbies0: map<string, Lobbies.LobbyContext>)
      reads engine, engine.bus, engine.lobbies.Values
    {
      Disconnecting(gone, i, seats0, now, e0, p0, listeners, sinks) && engine.lobbies == lobbies0 && Unseating(gone, i, seats0, r0)
    }

    /** The second loop of `_check_player_presence`. */
    method Disconnect(gone: seq<Departure>, now: int)
      requires engine.Valid() && Seqs.Distinct(IdsOf(gone))
      modifies engine`players, engine.lobbies.Values`players, engine.bus, engine.bus.sinks
      ensures engine.Valid() && engine.bus.listeners == old(engine.bus.listeners) && engine.bus.sinks == old(engine.bus.sinks)
      ensures engine.bus.emitted == old(engine.bus.emitted) + Disconnects(gone, old(Seats()), now)
      ensures engine.players == old(engine.players) - Removed(gone, old(Seats()))
      ensures engine.lobbies == old(engine.lobbies)
      ensures forall l :: l in engine.lobbies ==>
        engine.lobbies[l].players == old(engine.lobbies[l].players) - UnseatedFrom(gone, old(Seats()), l)
    {
      ghost var seats0 := Seats();
      ghost var e0, p0, r0 := engine.bus.emitted, engine.players, Rosters();
      IdsOfAt(gone);
      UnseatingStart(gone, seats0);
      var i := 0;
      ghost var lobbies0, listeners0, sinks0 := engine.lobbies, engine.bus.listeners, engine.bus.sinks;
      while i < |gone|
        invariant i <= |gone| && Progress(gone, i, seats0, now, e0, p0, r0, listeners0, sinks0, lobbies0)
      {
        DisconnectNext(gone, i, seats0, now, e0, p0, r0, listeners0, sinks0, lobbies0);
        i := i + 1;
      }
      assert gone[..|gone|] == gone;
    }

    /** Before the second loop no departure has unseated anyone. */
    lemma UnseatingStart(gone: seq<Departure>, seats0: map<string, set<string>>)
      ensures Unseating(gone, 0, seats0, Rosters())
    {
      var r := Rosters();
      forall l | l in r
        ensures r[l] == r[l] - UnseatedFrom(gone[..0], seats0, l)
      {
        assert UnseatedFrom(gone[..0], seats0, l) == {};
        assert r[l] - {} == r[l];
      }
    }

    /** One iteration of the second loop, as progress of both the bus and index and the rosters. */
    method DisconnectNext(gone: seq<Departure>, i: nat, ghost seats0: map<string, set<string>>, now: int,
                          ghost e0: seq<Events.EventRecord>, ghost p0: map<string, Player>, ghost r0: map<string, map<string, Player>>,
                          ghost listeners: map<string, seq<Events.Listener>>, ghost sinks: set<Metrics.Counters>,
                          ghost lobbies0: map<string, Lobbies.LobbyContext>)
      requires i < |gone| && Seqs.Distinct(IdsOf(gone))
      requires forall j :: 0 <= j < |gone| ==> IdsOf(gone)[j] == gone[j].playerId
      requires Progress(gone, i, seats0, now, e0, p0, r0, listeners, sinks, lobbies0)
      modifies engine`players, engine.lobbies.Values`players, engine.bus, engine.bus.sinks
      ensures Progress(gone, i + 1, seats0, now, e0, p0, r0, listeners, sinks, lobbies0)
    {
      ghost var before := Rosters();
      DisconnectOne(gone, i, seats0, now, e0, p0, listeners, sinks);
      RostersAfter(gone[i], seats0, before);
      UnseatStep(before, gone, i, seats0, r0);
    }

    /** When only `d`'s lobby lost `d`'s seated player, the rosters moved on by `Unseat`. */
    lemma RostersAfter(d: Departure, seats0: map<string, set<string>>, before: map<string, map<string, Player>>)
      requires before.Keys == engine.lobbies.Keys
      requires LobbyIdOf(d) in engine.lobbies ==>
        engine.lobbies[LobbyIdOf(d)].players == before[LobbyIdOf(d)] - (if SeatedBy(d, seats0) then {d.playerId} else {})
      requires forall l :: l in engine.lobbies && l != LobbyIdOf(d) ==> engine.lobbies[l].players == before[l]
      ensures Rosters() == Unseat(before, d, seats0)
    {
    }

    /** One iteration of the second loop, as progress. */
    method DisconnectOne(gone: seq<Departure>, i: nat, ghost seats0: map<string, set<string>>, now: int,
                         ghost e0: seq<Events.EventRecord>, ghost p0: map<string, Player>,
                         ghost listeners: map<string, seq<Events.Listener>>, ghost sinks: set<Metrics.Counters>)
      requires i < |gone| && Seqs.Distinct(IdsOf(gone))
      requires forall j :: 0 <= j < |gone| ==> IdsOf(gone)[j] == gone[j].playerId
      requires Disconnecting(gone, i, seats0, now, e0, p0, listeners, sinks)
      modifies engine`players, engine.lobbies.Values`players, engine.bus, engine.bus.sinks
      ensures Disconnecting(gone, i + 1, seats0, now, e0, p0, listeners, sinks) && engine.lobbies == old(engine.lobbies)
      ensures LobbyIdOf(gone[i]) in engine.lobbies ==>
        engine.lobbies[LobbyIdOf(gone[i])].players ==
          old(engine.lobbies[LobbyIdOf(gone[i])].players) - (if SeatedBy(gone[i], seats0) then {gone[i].playerId} else {})
      ensures forall l :: l in engine.lobbies && l != LobbyIdOf(gone[i]) ==> engine.lobbies[l].players == old(engine.lobbies[l].players)
    {
      ghost var p1 := engine.players;
      var d := gone[i];
      assert Sits(d) == SeatedBy(d, seats0);
      Leave(d, now);
      DisconnectStep(gone, i, seats0, now, p0, p1);
      assert forall j :: i < j < |gone| ==> gone[j].playerId != d.playerId;
    }

    /**
     * One iteration of the second loop: for a truthy lobby id, `remove_player_from_lobby` and
     * then `player_disconnected`. Only `d`'s own seat can change.
     */
    method Leave(d: Departure, now: int)
      requires engine.Valid()
      modifies engine`players, engine.LobbyRef(LobbyIdOf(d))`players, engine.bus, engine.bus.sinks
      ensures engine.Valid() && engine.bus.listeners == old(engine.bus.listeners) && engine.bus.sinks == old(engine.bus.sinks)
      ensures engine.bus.emitted == old(engine.bus.emitted) + Announcements(d, old(Sits(d)), now)
      ensures engine.players == old(engine.players) - (if old(Sits(d)) then {d.playerId} else {})
      ensures LobbyIdOf(d) in engine.lobbies ==>
        engine.lobbies[LobbyIdOf(d)].players ==
          old(engine.lobbies[LobbyIdOf(d)].players) - (if old(Sits(d)) then {d.playerId} else {})
      ensures forall l :: l in engine.lobbies && l != LobbyIdOf(d) ==> engine.lobbies[l].players == old(engine.lobbies[l].players)
      ensures forall e: Departure :: e.playerId != d.playerId ==> (Sits(e) <==> old(Sits(e)))
    {
      if InLobby(d.lobbyId) {
        DropAndAnnounce(d.lobbyId.value, d.playerId, now);
      }
      SitsFrame(d);
    }

    /** The truthy-lobby-id branch of the second loop: `remove_player_from_lobby`, then `player_disconnected`. */
    method DropAndAnnounce(lobbyId: string, playerId: string, now: int)
      requires engine.Valid()
      modifies engine`players, engine.LobbyRef(lobbyId)`players, engine.bus, engine.bus.sinks
      ensures engine.Valid() && engine.bus.listeners == old(engine.bus.listeners) && engine.bus.sinks == old(engine.bus.sinks)
      ensures engine.lobbies == old(engine.lobbies)
      ensures forall l :: l in engine.lobbies && l != lobbyId ==> engine.lobbies[l].players == old(engine.lobbies[l].players)
      ensures var sat := lobbyId in engine.lobbies && playerId in old(engine.lobbies[lobbyId].players);
        && engine.bus.emitted == old(engine.bus.emitted)
             + (if sat then [Events.EventRecord(Engine.PlayerLeft, Engine.PlayerPayload(lobbyId, playerId), now)] else [])
             + [Events.EventRecord(PlayerDisconnected, Engine.PlayerPayload(lobbyId, playerId), now)]
        && engine.players == old(engine.players) - (if sat then {playerId} else {})
        && (lobbyId in engine.lobbies ==>
              engine.lobbies[lobbyId].players == old(engine.lobbies[lobbyId].players) - (if sat then {playerId} else {}))
    {
      engine.RemovePlayerFromLobby(lobbyId, playerId, now);
      engine.bus.Emit(PlayerDisconnected, Engine.PlayerPayload(lobbyId, playerId), now);
    }

    /** When only `d`'s lobby lost at most `d`'s player, no other departure's seat changed. */
    twostate lemma SitsFrame(d: Departure)
      requires engine.lobbies == old(engine.lobbies)
      requires forall l :: l in engine.lobbies && l != LobbyIdOf(d) ==>
        engine.lobbies[l].players.Keys == old(engine.lobbies[l].players.Keys)
      requires LobbyIdOf(d) in engine.lobbies ==>
        engine.lobbies[LobbyIdOf(d)].players.Keys <= old(engine.lobbies[LobbyIdOf(d)].players.Keys)
        && engine.lobbies[LobbyIdOf(d)].players.Keys + {d.playerId} >= old(engine.lobbies[LobbyIdOf(d)].players.Keys)
      ensures forall e: Departure :: e.playerId != d.playerId ==> (Sits(e) <==> old(Sits(e)))
    {
    }

    /** The player filed under `playerId`, as a frame. */
    ghost function PlayerRef(playerId: string): set<Player>
      reads engine`players
    {
      if playerId in engine.players then {engine.players[playerId]} else {}
    }

    /** `update_player_presence`: a heartbeat for a known player; nothing for an unknown one. */
    method UpdatePlayerPresence(playerId: string, now: int)
      modifies PlayerRef(playerId)`lastHeartbeat, PlayerRef(playerId)`connected
      ensures playerId in engine.players ==>
        engine.players[playerId].lastHeartbeat == now && engine.players[playerId].connected
      ensures playerId in engine.players ==> engine.players[playerId].IsAlive(timeout, now)
    {
      var lookup := engine.GetPlayer(playerId);
      if lookup.Some? {
        lookup.value.Heartbeat(now);
      }
    }

    /** `get_online_count`: the connected players. */
    function GetOnlineCount(): (r: nat)
      reads engine`players, engine.players.Values`connected
      ensures r <= |engine.players|
      ensures r == |engine.players| <==> forall k :: k in engine.players ==> engine.players[k].connected
    {
      var online := set k | k in engine.players && engine.players[k].connected;
      Seqs.SubsetSize(online, engine.players.Keys);
      Seqs.SubsetEqualSize(online, engine.players.Keys);
      assert (forall k :: k in engine.players ==> engine.players[k].connected) ==> online == engine.players.Keys;
      |online|
    }
  }
}
