/**
 * The bot bookkeeping service: it creates bots, seats them through the engine (rolling a bot back
 * when the engine refuses it), fills lobbies, drives the bots' per-tick behaviour and counts them.
 * Generated bot ids and the draws of the random behaviour are supplied by the caller.
 */
module BotManagement {
  import opened Wrappers
  import Events
  import Seqs
  import opened Bots
  import Behaviors
  import Engine
  import Metrics
  import opened Lobbies

  /** `range(count)` runs this many times: a negative count runs none. */
  function Attempts(count: int): (r: nat)
    ensures count >= 0 ==> r == count
    ensures count < 0 ==> r == 0
  {
    if count < 0 then 0 else count
  }

  /** A Python-truthy lobby id: present and not the empty string. */
  predicate InLobby(lobbyId: Option<string>) {
    lobbyId.Some? && lobbyId.value != ""
  }

  /** The ids of `bs`, in order. */
  function IdsOf(bs: seq<Bot>): (r: seq<string>)
    ensures |r| == |bs|
  {
    if bs == [] then [] else IdsOf(bs[..|bs| - 1]) + [bs[|bs| - 1].botId]
  }

  /** One more bot, with the next id of `ids`, keeps the ids of `bs` a prefix of `ids`. */
  lemma IdsOfStep(bs: seq<Bot>, bot: Bot, ids: seq<string>)
    requires |bs| < |ids| && IdsOf(bs) == ids[..|bs|] && bot.botId == ids[|bs|]
    ensures IdsOf(bs + [bot]) == ids[..|bs| + 1]
  {
    var t := bs + [bot];
    assert t[..|t| - 1] == bs;
    Seqs.TakeStep(ids, |bs|);
  }

  /** `m` after filing each bot of `bs` under its own id, in order (a later bot replaces an earlier one). */
  function Filed(m: map<string, Bot>, bs: seq<Bot>): map<string, Bot> {
    if bs == [] then m else Filed(m, bs[..|bs| - 1])[bs[|bs| - 1].botId := bs[|bs| - 1]]
  }

  /** Filing adds exactly the ids of `bs`, and keeps every entry under its own id. */
  lemma {:induction false} FiledKeys(m: map<string, Bot>, bs: seq<Bot>)
    ensures Filed(m, bs).Keys == m.Keys + Seqs.Elems(IdsOf(bs))
    ensures (forall k :: k in m ==> m[k].botId == k) ==> forall k :: k in Filed(m, bs) ==> Filed(m, bs)[k].botId == k
  {
    if bs != [] {
      var init := bs[..|bs| - 1];
      FiledKeys(m, init);
      assert IdsOf(bs) == IdsOf(init) + [bs[|bs| - 1].botId];
      Seqs.ConcatElems(IdsOf(init), [bs[|bs| - 1].botId], IdsOf(bs));
    }
  }

  /** Filing grows a map by at most one entry per bot. */
  lemma {:induction false} FiledBound(m: map<string, Bot>, bs: seq<Bot>)
    ensures |Filed(m, bs)| <= |m| + |bs|
  {
    if bs != [] {
      var init := bs[..|bs| - 1];
      FiledBound(m, init);
      var f := Filed(m, init);
      var b := bs[|bs| - 1];
      if b.botId in f {
        assert f[b.botId := b].Keys == f.Keys;
      } else {
        assert f[b.botId := b].Keys == f.Keys + {b.botId};
      }
    }
  }

  /** Filing bots whose ids are distinct and new grows the map by exactly that many entries. */
  lemma {:induction false} FiledSize(m: map<string, Bot>, bs: seq<Bot>)
    requires Seqs.Distinct(IdsOf(bs))
    requires forall j :: 0 <= j < |bs| ==> bs[j].botId !in m
    ensures |Filed(m, bs)| == |m| + |bs|
  {
    if bs != [] {
      var init := bs[..|bs| - 1];
      assert IdsOf(init) == IdsOf(bs)[..|bs| - 1];
      FiledSize(m, init);
      FiledKeys(m, init);
      Seqs.DistinctNotBefore(IdsOf(bs), |bs| - 1);
      assert bs[|bs| - 1].botId !in Filed(m, init);
    }
  }

  /** One `bot_joined` record per bot of `bs`, in order. */
  function Joins(lobbyId: string, bs: seq<Bot>, now: int): (r: seq<Events.EventRecord>)
    ensures |r| == |bs|
    ensures forall j :: 0 <= j < |bs| ==>
      r[j] == Events.EventRecord(Engine.BotJoined, Engine.BotPayload(lobbyId, bs[j].botId), now)
  {
    if bs == [] then []
    else Joins(lobbyId, bs[..|bs| - 1], now) + [Events.EventRecord(Engine.BotJoined, Engine.BotPayload(lobbyId, bs[|bs| - 1].botId), now)]
  }

  /** How many bots `fill_lobby_with_bots` tries to add: the free seats, capped by the free bot slots. */
  function Slots(lobby: LobbyContext): (r: int)
    reads lobby`players, lobby`bots
    ensures r <= lobby.maxPlayers - |lobby.players| && r <= lobby.maxBots - |lobby.bots|
    ensures r == lobby.maxPlayers - |lobby.players| || r == lobby.maxBots - |lobby.bots|
  {
    var available := lobby.maxPlayers - lobby.GetPlayerCount();
    var free := lobby.maxBots - lobby.GetBotCount();
    if available < free then available else free
  }

  /** The draw the random behaviour uses for bot `k` (any value for the other behaviours). */
  function Draw(draws: map<string, int>, k: string): int {
    if k in draws then draws[k] else 0
  }

  /** The sum of the values of `m`. */
  ghost function SumValues(m: map<string, nat>): nat
    decreases |m|
  {
    if m == map[] then 0
    else
      var k :| k in m;
      assert |m - {k}| < |m| by { assert m.Keys == (m - {k}).Keys + {k}; }
      m[k] + SumValues(m - {k})
  }

  /** The sum does not depend on which key is taken first. */
  lemma {:induction false} SumValuesRemove(m: map<string, nat>, k: string)
    requires k in m
    ensures SumValues(m) == m[k] + SumValues(m - {k})
    decreases |m|
  {
    var k' :| k' in m && SumValues(m) == m[k'] + SumValues(m - {k'});
    if k' != k {
      assert m.Keys == (m - {k}).Keys + {k};
      assert m.Keys == (m - {k'}).Keys + {k'};
      SumValuesRemove(m - {k'}, k);
      SumValuesRemove(m - {k}, k');
      assert (m - {k'}) - {k} == (m - {k}) - {k'};
    }
  }

  /** The `counts.get(b, 0) + 1` dict built over the names `s`, in order. */
  function Tally(s: seq<string>): map<string, nat> {
    if s == [] then map[]
    else
      var t := Tally(s[..|s| - 1]);
      var x := s[|s| - 1];
      t[x := (if x in t then t[x] else 0) + 1]
  }

  /** A tally has a key for exactly the names that occur, each counted at least once. */
  lemma {:induction false} TallyKeys(s: seq<string>)
    ensures Tally(s).Keys == Seqs.Elems(s)
    ensures forall b :: b in Tally(s) ==> Tally(s)[b] >= 1
  {
    if s != [] {
      TallyKeys(s[..|s| - 1]);
      assert s == s[..|s| - 1] + [s[|s| - 1]];
      Seqs.ConcatElems(s[..|s| - 1], [s[|s| - 1]], s);
    }
  }

  /** The counts of a tally add up to the number of names. */
  lemma {:induction false} TallySum(s: seq<string>)
    ensures SumValues(Tally(s)) == |s|
  {
    if s != [] {
      var t := Tally(s[..|s| - 1]);
      var x := s[|s| - 1];
      TallySum(s[..|s| - 1]);
      var t' := Tally(s);
      SumValuesRemove(t', x);
      assert t' - {x} == t - {x};
      if x in t {
        SumValuesRemove(t, x);
      } else {
        assert t - {x} == t;
      }
    }
  }

  /** Each name's count in a tally is the number of times it occurs. */
  lemma {:induction false} TallyCounts(s: seq<string>)
    ensures forall b :: b in Tally(s) ==> Tally(s)[b] == multiset(s)[b]
  {
    if s != [] {
      var p := s[..|s| - 1];
      TallyCounts(p);
      TallyKeys(p);
      assert s == p + [s[|s| - 1]];
    }
  }

  /** The keys of `kinds` whose value is `b`: with `Kinds()`, the ids of the bots following behaviour `b`. */
  ghost function Following(kinds: map<string, string>, b: string): set<string> {
    set k | k in kinds && kinds[k] == b
  }

  /** Dropping the last key of a listing lists the map without that key. */
  lemma ListsInit(kinds: map<string, string>, ids: seq<string>)
    requires Seqs.Lists(ids, kinds.Keys) && ids != []
    ensures Seqs.Lists(ids[..|ids| - 1], (kinds - {ids[|ids| - 1]}).Keys)
  {
    var n := |ids| - 1;
    forall k ensures k in ids[..n] <==> k in (kinds - {ids[n]}).Keys {
      if k in ids[..n] {
        var j :| 0 <= j < n && ids[..n][j] == k;
        assert ids[j] == k;
      }
      if k in (kinds - {ids[n]}).Keys {
        var j :| 0 <= j < |ids| && ids[j] == k;
        assert ids[..n][j] == k;
      }
    }
  }

  /** The keys following `b` split into the last key and the rest. */
  lemma FollowingSplit(kinds: map<string, string>, x: string, b: string)
    requires x in kinds
    ensures |Following(kinds, b)| == |Following(kinds - {x}, b)| + (if kinds[x] == b then 1 else 0)
  {
    var mine: set<string> := if kinds[x] == b then {x} else {};
    assert Following(kinds, b) == Following(kinds - {x}, b) + mine;
    assert x !in Following(kinds - {x}, b);
  }

  /**
   * Reading the value of every key of `kinds`, in the order `ids`, meets `b` once per key
   * whose value is `b`.
   */
  lemma {:induction false} ListingCount(kinds: map<string, string>, ids: seq<string>, seen: seq<string>, b: string)
    requires Seqs.Lists(ids, kinds.Keys) && |seen| == |ids|
    requires forall j :: 0 <= j < |ids| ==> seen[j] == kinds[ids[j]]
    ensures multiset(seen)[b] == |Following(kinds, b)|
    decreases |ids|
  {
    if ids == [] {
      assert kinds.Keys == {};
      assert Following(kinds, b) == {};
    } else {
      var n := |ids| - 1;
      var x := ids[n];
      var rest := kinds - {x};
      ListsInit(kinds, ids);
      forall j | 0 <= j < n ensures seen[..n][j] == rest[ids[..n][j]] {
        assert ids[j] != x;
      }
      ListingCount(rest, ids[..n], seen[..n], b);
      assert seen == seen[..n] + [seen[n]];
      FollowingSplit(kinds, x, b);
    }
  }

  /** The tally of a listing's values counts, for each value, the keys that carry it. */
  lemma TallyOfListing(kinds: map<string, string>, ids: seq<string>, seen: seq<string>)
    requires Seqs.Lists(ids, kinds.Keys) && |seen| == |ids|
    requires forall j :: 0 <= j < |ids| ==> seen[j] == kinds[ids[j]]
    ensures forall b :: b in Tally(seen) ==> Tally(seen)[b] == |Following(kinds, b)|
  {
    TallyCounts(seen);
    forall b | b in Tally(seen) ensures Tally(seen)[b] == |Following(kinds, b)| {
      ListingCount(kinds, ids, seen, b);
    }
  }

  /** Reading the value of every key of `kinds`, in the order `ids`, meets exactly its values. */
  lemma SeenKinds(kinds: map<string, string>, ids: seq<string>, seen: seq<string>)
    requires Seqs.Lists(ids, kinds.Keys) && |seen| == |ids|
    requires forall j :: 0 <= j < |ids| ==> seen[j] == kinds[ids[j]]
    ensures Seqs.Elems(seen) == kinds.Values
  {
    forall b | b in kinds.Values ensures b in seen {
      var k :| k in kinds && kinds[k] == b;
      var j :| 0 <= j < |ids| && ids[j] == k;
      assert seen[j] == b;
    }
  }

  /**
   * What one iteration of `update_all_bots` leaves on bot `b` that was `ready0` with last action
   * `last0`: the tick's auto-ready, then the behaviour's, and the tick's action time.
   */
  predicate Updated(b: Bot, ready0: bool, last0: int, now: int, drawn: int)
    reads b
  {
    b.ready == Ready1(b, ready0, now, drawn) && b.lastAction == NextAction(b.behavior, last0, now)
  }

  /** The `ready` flag a bot that was `ready0` ends one update with. */
  predicate Ready1(b: Bot, ready0: bool, now: int, drawn: int) {
    ready0 || b.ReadyDue(now) || (b.autoReady && Behaviors.Due(b.behavior, now - b.joinedAt, b.readyDelay, drawn))
  }

  /** The body of `update_all_bots`: `tick`, then `execute_behavior`. */
  method UpdateBot(b: Bot, now: int, drawn: int)
    requires b.behavior == RandomName ==> Behaviors.InDrawRange(b.readyDelay, drawn)
    modifies b`ready, b`lastAction
    ensures Updated(b, old(b.ready), old(b.lastAction), now, drawn)
  {
    b.Tick(now);
    Behaviors.ExecuteBehavior(b, now, drawn);
  }

  /**
   * The bookkeeping `add_bot_to_lobby` leaves: an accepted bot is filed in both maps under its id
   * and announced by one `bot_joined`; a refused one leaves the engine alone and takes its key
   * out of the manager's map.
   */
  predicate Offered(r: Option<Bot>, lobbyId: string, botId: string, now: int,
                    active0: map<string, Bot>, active: map<string, Bot>,
                    bots0: map<string, Bot>, bots: map<string, Bot>,
                    emitted0: seq<Events.EventRecord>, emitted: seq<Events.EventRecord>)
  {
    && (r.Some? ==>
          && active == active0[botId := r.value] && bots == bots0[botId := r.value]
          && emitted == emitted0 + [Events.EventRecord(Engine.BotJoined, Engine.BotPayload(lobbyId, botId), now)])
    && (r.None? ==> active == active0 - {botId} && bots == bots0 && emitted == emitted0)
  }

  class BotManager {
    const engine: Engine.LobbyEngine
    var activeBots: map<string, Bot>

    /** The engine is consistent and every bot is filed under its own id. */
    ghost predicate Valid()
      reads this, engine, engine.bus
    {
      engine.Valid() && Keyed()
    }

    /** Every bot is filed under its own id. */
    ghost predicate Keyed()
      reads this
    {
      forall k :: k in activeBots ==> activeBots[k].botId == k
    }

    /** `__init__`: no bots yet. */
    constructor (engine: Engine.LobbyEngine)
      ensures this.engine == engine && activeBots == map[]
      ensures engine.Valid() ==> Valid()
    {
      this.engine := engine;
      activeBots := map[];
    }

    /** `create_bot`: a new, unseated bot filed under `botId` (replacing any bot with that id). */
    method CreateBot(botId: string, profile: BotProfile, now: int) returns (bot: Bot)
      requires Valid()
      modifies this`activeBots
      ensures Valid() && fresh(bot)
      ensures bot.botId == botId && bot.profile == profile && bot.joinedAt == now
      ensures !bot.ready && bot.lobbyId == None
      ensures activeBots == old(activeBots)[botId := bot]
    {
      bot := new Bot(botId, profile, now);
      activeBots := activeBots[botId := bot];
    }

    /** `create_bots`: one new bot per iteration of `range(count)`; the i-th takes `ids[i]`. */
    method CreateBots(count: int, ids: seq<string>, profile: BotProfile, now: int) returns (bots: seq<Bot>)
      requires Valid() && |ids| >= count
      modifies this`activeBots
      ensures Valid() && |bots| == Attempts(count)
      ensures forall j :: 0 <= j < |bots| ==> fresh(bots[j]) && bots[j].botId == ids[j]
      ensures activeBots == Filed(old(activeBots), bots)
    {
      bots := [];
      var i := 0;
      while i < count
        invariant Valid() && 0 <= i <= Attempts(count) && |bots| == i
        invariant forall j :: 0 <= j < i ==> fresh(bots[j]) && bots[j].botId == ids[j]
        invariant activeBots == Filed(old(activeBots), bots)
      {
        var bot := CreateBot(ids[i], profile, now);
        assert (bots + [bot])[..i] == bots;
        bots := bots + [bot];
        i := i + 1;
      }
    }

    /**
     * `add_bot_to_lobby`: creates the bot and offers it to the engine. The engine accepts it iff
     * the lobby exists, and seats and stamps it when a bot slot is free; a refused bot is deleted
     * again, together with its key.
     */
    method AddBotToLobby(lobbyId: string, botId: string, profile: BotProfile, now: int) returns (r: Option<Bot>)
      requires Valid()
      modifies this`activeBots, engine`bots, engine.LobbyRef(lobbyId)`bots, engine.bus, engine.bus.sinks
      ensures Valid() && engine.bus.listeners == old(engine.bus.listeners) && engine.bus.sinks == old(engine.bus.sinks)
      ensures r.Some? <==> lobbyId in engine.lobbies
      ensures r.Some? ==> fresh(r.value) && r.value.botId == botId
      ensures Offered(r, lobbyId, botId, now, old(activeBots), activeBots, old(engine.bots), engine.bots,
                      old(engine.bus.emitted), engine.bus.emitted)
      ensures r.Some? ==>
        && engine.lobbies[lobbyId].bots ==
             (if |old(engine.lobbies[lobbyId].bots)| < engine.lobbies[lobbyId].maxBots
              then old(engine.lobbies[lobbyId].bots)[botId := r.value]
              else old(engine.lobbies[lobbyId].bots))
        && r.value.lobbyId == if |old(engine.lobbies[lobbyId].bots)| < engine.lobbies[lobbyId].maxBots then Some(lobbyId) else None
    {
      var bot := CreateBot(botId, profile, now);
      var ok := engine.AddBotToLobby(lobbyId, bot, now);
      if ok {
        r := Some(bot);
      } else {
        activeBots := activeBots - {botId};
        r := None;
      }
    }

    /** The lobby a known bot would be unseated from (only used when its id is truthy). */
    ghost function LobbyOf(botId: string): string
      reads this, activeBots.Values
    {
      if botId in activeBots && activeBots[botId].lobbyId.Some? then activeBots[botId].lobbyId.value else ""
    }

    /**
     * `remove_bot`: a no-op for an unknown id; otherwise the bot is unseated through the engine when
     * its lobby id is truthy, and always forgotten.
     */
    method RemoveBot(botId: string, now: int)
      requires Valid()
      modifies this`activeBots, engine`bots, engine.LobbyRef(LobbyOf(botId))`bots, engine.bus, engine.bus.sinks
      ensures Valid() && engine.bus.listeners == old(engine.bus.listeners) && engine.bus.sinks == old(engine.bus.sinks)
      ensures activeBots == old(activeBots) - {botId}
      ensures botId !in old(activeBots) || !InLobby(old(activeBots[botId].lobbyId)) ==>
        engine.bots == old(engine.bots) && engine.bus.emitted == old(engine.bus.emitted)
      ensures botId in old(activeBots) && InLobby(old(activeBots[botId].lobbyId)) ==>
        var lid := old(activeBots[botId].lobbyId.value);
        if lid in engine.lobbies && botId in old(engine.lobbies[lid].bots) then
          && engine.lobbies[lid].bots == old(engine.lobbies[lid].bots) - {botId}
          && engine.bots == old(engine.bots) - {botId}
          && engine.bus.emitted == old(engine.bus.emitted) + [Events.EventRecord(Engine.BotLeft, Engine.BotPayload(lid, botId), now)]
        else
          engine.bots == old(engine.bots) && engine.bus.emitted == old(engine.bus.emitted)
    {
      if botId in activeBots {
        var bot := activeBots[botId];
        if InLobby(bot.lobbyId) {
          engine.RemoveBotFromLobby(bot.lobbyId.value, botId, now);
        }
        activeBots := activeBots - {botId};
      }
    }

    /** `get_bot` */
    function GetBot(botId: string): (r: Option<Bot>)
      reads this
      ensures r.Some? <==> botId in activeBots
      ensures r.Some? ==> r.value == activeBots[botId]
    {
      if botId in activeBots then Some(activeBots[botId]) else None
    }

    /** `get_all_bots`: every bot, once each. */
    method GetAllBots() returns (r: seq<Bot>)
      ensures |r| == |activeBots|
      ensures forall b :: b in r <==> b in activeBots.Values
    {
      var ids := Seqs.Enumerate(activeBots.Keys);
      r := [];
      var i := 0;
      while i < |ids|
        invariant 0 <= i <= |ids| && |r| == i
        invariant forall j :: 0 <= j < i ==> r[j] == activeBots[ids[j]]
      {
        r := r + [activeBots[ids[i]]];
        i := i + 1;
      }
      forall b | b in activeBots.Values ensures b in r {
        var k :| k in activeBots && activeBots[k] == b;
        var j :| 0 <= j < |ids| && ids[j] == k;
        assert r[j] == b;
      }
    }

    /**
     * `fill_lobby_with_bots`: nothing for an unknown lobby; otherwise `Slots` attempts, each with
     * the next id of `ids`. Every attempt succeeds, since the lobby stays registered.
     */
    method FillLobbyWithBots(lobbyId: string, ids: seq<string>, profile: BotProfile, now: int) returns (added: seq<Bot>)
      requires Valid()
      requires lobbyId in engine.lobbies ==> |ids| >= Slots(engine.lobbies[lobbyId])
      modifies this`activeBots, engine`bots, engine.LobbyRef(lobbyId)`bots, engine.bus, engine.bus.sinks
      ensures Valid() && engine.bus.listeners == old(engine.bus.listeners) && engine.bus.sinks == old(engine.bus.sinks)
      ensures lobbyId !in engine.lobbies ==>
        added == [] && activeBots == old(activeBots) && engine.bots == old(engine.bots)
        && engine.bus.emitted == old(engine.bus.emitted)
      ensures lobbyId in engine.lobbies ==>
        && |added| == Attempts(old(Slots(engine.lobbies[lobbyId])))
        && IdsOf(added) == ids[..|added|]
        && activeBots == Filed(old(activeBots), added)
        && engine.bots == Filed(old(engine.bots), added)
        && engine.lobbies[lobbyId].bots == Filed(old(engine.lobbies[lobbyId].bots), added)
        && (forall k :: 0 <= k < |added| ==> added[k].lobbyId == Some(lobbyId))
        && engine.bus.emitted == old(engine.bus.emitted) + Joins(lobbyId, added, now)
    {
      added := [];
      var lookup := engine.GetLobby(lobbyId);
      if lookup.Some? {
        var lobby := lookup.value;
        var slots := Slots(lobby);
        ghost var bots0, emitted0, seated0 := engine.bots, engine.bus.emitted, lobby.bots;
        var i := 0;
        while i < slots
          invariant 0 <= i <= Attempts(slots) && |added| == i
          invariant Filling(lobbyId, ids, now, added, old(activeBots), bots0, seated0, emitted0, old(engine.bus.listeners), old(engine.bus.sinks))
          invariant |seated0| + slots <= engine.lobbies[lobbyId].maxBots
        {
          added := FillStep(lobbyId, ids, profile, now, added, old(activeBots), bots0, seated0, emitted0, old(engine.bus.listeners), old(engine.bus.sinks));
          i := i + 1;
        }
      }
    }

    /** Progress of `fill_lobby_with_bots` after the bots `added`, each stamped, from the state `a0`, `b0`, `e0`. */
    ghost predicate Filling(lobbyId: string, ids: seq<string>, now: int, added: seq<Bot>,
                            a0: map<string, Bot>, b0: map<string, Bot>, s0: map<string, Bot>, e0: seq<Events.EventRecord>,
                            listeners: map<string, seq<Events.Listener>>, sinks: set<Metrics.Counters>)
      reads this, engine, engine.bus, engine.LobbyRef(lobbyId), added`lobbyId
    {
      && Valid() && lobbyId in engine.lobbies
      && (forall k :: 0 <= k < |added| ==> added[k].lobbyId == Some(lobbyId))
      && engine.bus.listeners == listeners && engine.bus.sinks == sinks
      && |added| <= |ids| && IdsOf(added) == ids[..|added|]
      && activeBots == Filed(a0, added)
      && engine.bots == Filed(b0, added)
      && engine.lobbies[lobbyId].bots == Filed(s0, added)
      && engine.bus.emitted == e0 + Joins(lobbyId, added, now)
    }

    /** One attempt of `fill_lobby_with_bots`: it always succeeds, since the lobby stays registered. */
    method FillStep(lobbyId: string, ids: seq<string>, profile: BotProfile, now: int, added: seq<Bot>,
                    ghost a0: map<string, Bot>, ghost b0: map<string, Bot>, ghost s0: map<string, Bot>, ghost e0: seq<Events.EventRecord>,
                    ghost listeners: map<string, seq<Events.Listener>>, ghost sinks: set<Metrics.Counters>) returns (added': seq<Bot>)
      requires |added| < |ids| && Filling(lobbyId, ids, now, added, a0, b0, s0, e0, listeners, sinks)
      requires |s0| + |added| < engine.lobbies[lobbyId].maxBots
      modifies this`activeBots, engine`bots, engine.LobbyRef(lobbyId)`bots, engine.bus, engine.bus.sinks
      ensures |added'| == |added| + 1 && Filling(lobbyId, ids, now, added', a0, b0, s0, e0, listeners, sinks)
    {
      FiledBound(s0, added);
      var bot := Offer(lobbyId, ids[|added|], profile, now, added);
      added' := added + [bot];
      IdsOfStep(added, bot, ids);
    }

    /**
     * `add_bot_to_lobby` for a registered lobby with a free bot slot: the bot is filed, seated and
     * stamped, and the bots `added` before it keep their lobby ids.
     */
    method Offer(lobbyId: string, botId: string, profile: BotProfile, now: int, ghost added: seq<Bot>) returns (bot: Bot)
      requires Valid() && lobbyId in engine.lobbies && |engine.lobbies[lobbyId].bots| < engine.lobbies[lobbyId].maxBots
      modifies this`activeBots, engine`bots, engine.LobbyRef(lobbyId)`bots, engine.bus, engine.bus.sinks
      ensures Valid() && engine.bus.listeners == old(engine.bus.listeners) && engine.bus.sinks == old(engine.bus.sinks)
      ensures bot.botId == botId && bot.lobbyId == Some(lobbyId)
      ensures forall k :: 0 <= k < |added| ==> added[k].lobbyId == old(added[k].lobbyId)
      ensures activeBots == old(activeBots)[botId := bot] && engine.bots == old(engine.bots)[botId := bot]
      ensures engine.lobbies[lobbyId].bots == old(engine.lobbies[lobbyId].bots)[botId := bot]
      ensures engine.bus.emitted == old(engine.bus.emitted) + [Events.EventRecord(Engine.BotJoined, Engine.BotPayload(lobbyId, botId), now)]
    {
      var r := AddBotToLobby(lobbyId, botId, profile, now);
      bot := r.value;
    }

    /**
     * `update_all_bots`: each bot ticks and then runs its behaviour; `draws[k]` is the delay the
     * random behaviour draws for bot `k`.
     */
    method UpdateAllBots(now: int, draws: map<string, int>)
      requires Keyed()
      requires forall k :: k in activeBots && activeBots[k].behavior == RandomName ==>
        Behaviors.InDrawRange(activeBots[k].readyDelay, Draw(draws, k))
      modifies activeBots.Values`ready, activeBots.Values`lastAction
      ensures forall k :: k in activeBots ==>
        Updated(activeBots[k], old(activeBots[k].ready), old(activeBots[k].lastAction), now, Draw(draws, k))
      ensures forall k :: k in activeBots && activeBots[k].ReadyDue(now) ==> activeBots[k].ready
    {
      var pending := activeBots.Keys;
      while pending != {}
        invariant pending <= activeBots.Keys
        invariant forall k :: k in activeBots && k !in pending ==>
          Updated(activeBots[k], old(activeBots[k].ready), old(activeBots[k].lastAction), now, Draw(draws, k))
        invariant forall k :: k in pending ==>
          activeBots[k].ready == old(activeBots[k].ready) && activeBots[k].lastAction == old(activeBots[k].lastAction)
        decreases pending
      {
        var k :| k in pending;
        UpdateBot(activeBots[k], now, Draw(draws, k));
        pending := pending - {k};
      }
    }

    /** The behaviour of every bot, by id. */
    ghost function Kinds(): (r: map<string, string>)
      reads this
      ensures r.Keys == activeBots.Keys
      ensures forall k :: k in r ==> r[k] == activeBots[k].behavior
    {
      map k | k in activeBots :: activeBots[k].behavior
    }

    /** `_count_by_behavior`: how many bots follow each behaviour in use. */
    method CountByBehavior() returns (counts: map<string, nat>)
      ensures counts.Keys == Kinds().Values
      ensures forall b :: b in counts ==> counts[b] >= 1
      ensures forall b :: b in counts ==> counts[b] == |Following(Kinds(), b)|
      ensures SumValues(counts) == |activeBots|
    {
      var ids := Seqs.Enumerate(activeBots.Keys);
      ghost var kinds := Kinds();
      ghost var seen: seq<string> := [];
      counts := map[];
      var i := 0;
      while i < |ids|
        invariant 0 <= i <= |ids| && |seen| == i
        invariant forall j :: 0 <= j < i ==> seen[j] == kinds[ids[j]]
        invariant counts == Tally(seen)
      {
        var b := activeBots[ids[i]].behavior;
        assert (seen + [b])[..i] == seen;
        counts := counts[b := (if b in counts then counts[b] else 0) + 1];
        seen := seen + [b];
        i := i + 1;
      }
      TallyKeys(seen);
      TallySum(seen);
      SeenKinds(kinds, ids, seen);
      TallyOfListing(kinds, ids, seen);
    }

    /** `_count_in_lobbies`: the bots whose lobby id is truthy. */
    function CountInLobbies(): (r: nat)
      reads this, activeBots.Values
      ensures r <= |activeBots|
      ensures r == 0 <==> forall k :: k in activeBots ==> !InLobby(activeBots[k].lobbyId)
    {
      var seated := set k | k in activeBots && InLobby(activeBots[k].lobbyId);
      Seqs.SubsetSize(seated, activeBots.Keys);
      assert forall k :: k in activeBots && InLobby(activeBots[k].lobbyId) ==> k in seated;
      assert (forall k :: k in activeBots ==> !InLobby(activeBots[k].lobbyId)) ==> seated == {};
      |seated|
    }

    /** `get_bot_stats`: the total, the per-behaviour counts and the seated count. */
    method GetBotStats() returns (total: nat, byBehavior: map<string, nat>, inLobbies: nat)
      ensures total == |activeBots| && inLobbies == CountInLobbies()
      ensures SumValues(byBehavior) == total
      ensures byBehavior.Keys == Kinds().Values
      ensures forall b :: b in byBehavior ==> byBehavior[b] == |Following(Kinds(), b)|
    {
      total := |activeBots|;
      byBehavior := CountByBehavior();
      inLobbies := CountInLobbies();
    }
  }
}
