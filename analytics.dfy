/**
 * The analytics service: a `Metrics.Counters` subscribed to the engine's bus for a fixed list of
 * event names, and a snapshot of the engine's sizes next to the counters.
 */
module Analytics {
  import opened Wrappers
  import Events
  import Engine
  import Lobbies
  import Matchmaking
  import Metrics
  import Seqs

  /** The names `_setup_event_tracking` subscribes to, in subscription order. */
  const TrackedEvents: seq<string> := [
    Engine.LobbyCreated, Engine.LobbyDeleted, Engine.PlayerJoined,
    Engine.PlayerLeft, Engine.PlayerReadyChanged, Engine.BotJoined,
    Engine.BotLeft, Matchmaking.MatchCreated, Lobbies.AllReadyEvent
  ]

  /** The nine names are different, so each is subscribed once. */
  lemma TrackedDistinct()
    ensures Seqs.Distinct(TrackedEvents) && |TrackedEvents| == 9
    ensures "player_disconnected" !in TrackedEvents
  {
  }

  /** A listener map read like `EventBus.ListenersOf`: an absent name has no listeners. */
  function Lookup(ls: map<string, seq<Events.Listener>>, name: string): seq<Events.Listener> {
    if name in ls then ls[name] else []
  }

  /** The listener map after `on(name, l)` for every name of `names`, in order. */
  function Subscribe(ls: map<string, seq<Events.Listener>>, names: seq<string>, l: Events.Listener): map<string, seq<Events.Listener>> {
    if names == [] then ls
    else
      var r := Subscribe(ls, names[..|names| - 1], l);
      var n := names[|names| - 1];
      r[n := Lookup(r, n) + [l]]
  }

  /** With distinct names, each subscribed name gains `l` once at its end and no other name changes. */
  lemma {:induction false} SubscribeLookup(ls: map<string, seq<Events.Listener>>, names: seq<string>, l: Events.Listener, name: string)
    requires Seqs.Distinct(names)
    ensures Lookup(Subscribe(ls, names, l), name) == Lookup(ls, name) + (if name in names then [l] else [])
  {
    if names != [] {
      var init := names[..|names| - 1];
      assert Seqs.Distinct(init);
      SubscribeLookup(ls, init, l, name);
      assert name in names <==> name in init || name == names[|names| - 1];
      if name == names[|names| - 1] {
        assert name !in init;
      }
    }
  }

  /** A counter not subscribed before is subscribed exactly once to each tracked name afterwards. */
  lemma TrackedOnce(ls: map<string, seq<Events.Listener>>, c: Metrics.Counters, name: string)
    requires forall n :: n in ls ==> Events.Track(c) !in ls[n]
    ensures Events.Occurrences(c, Lookup(Subscribe(ls, TrackedEvents, Events.Track(c)), name)) ==
            (if name in TrackedEvents then 1 else 0)
  {
    TrackedDistinct();
    SubscribeLookup(ls, TrackedEvents, Events.Track(c), name);
    assert Events.Track(c) !in multiset(Lookup(ls, name));
  }

  /** `len(players) / len(lobbies)`, kept as the exact fraction. */
  datatype Ratio = Ratio(numerator: nat, denominator: nat)

  /** The dict `get_analytics` returns; the average is present only when some lobby exists. */
  datatype Snapshot = Snapshot(
    uptime: int,
    totalLobbies: nat,
    totalPlayers: nat,
    totalBots: nat,
    totalParties: nat,
    eventCounts: map<string, int>,
    metrics: map<string, int>,
    avgPlayersPerLobby: Option<Ratio>)

  class AnalyticsService {
    const engine: Engine.LobbyEngine
    const counters: Metrics.Counters
    /** The clock reading at construction. */
    const startTime: int

    /** `__init__`: empty counters, the start time, and the subscriptions. */
    constructor (engine: Engine.LobbyEngine, now: int)
      requires engine.Valid()
      modifies engine.bus`listeners, engine.bus`sinks
      ensures this.engine == engine && startTime == now && fresh(counters)
      ensures counters.eventCounts == map[] && counters.metrics == map[]
      ensures engine.Valid()
      ensures engine.bus.listeners == Subscribe(old(engine.bus.listeners), TrackedEvents, Events.Track(counters))
      ensures engine.bus.sinks == old(engine.bus.sinks) + {counters}
      ensures forall name :: Events.Occurrences(counters, engine.bus.ListenersOf(name)) == (if name in TrackedEvents then 1 else 0)
    {
      this.engine := engine;
      counters := new Metrics.Counters();
      startTime := now;
      new;
      ghost var ls0 := engine.bus.listeners;
      assert forall n :: n in ls0 ==> Events.Track(counters) !in ls0[n];
      SetupEventTracking();
      forall name
        ensures Events.Occurrences(counters, engine.bus.ListenersOf(name)) == (if name in TrackedEvents then 1 else 0)
      {
        TrackedOnce(ls0, counters, name);
      }
    }

    /** `_setup_event_tracking`: `on(name, _track_event)` for each tracked name in turn. */
    method SetupEventTracking()
      requires engine.Valid()
      modifies engine.bus`listeners, engine.bus`sinks
      ensures engine.Valid()
      ensures engine.bus.listeners == Subscribe(old(engine.bus.listeners), TrackedEvents, Events.Track(counters))
      ensures engine.bus.sinks == old(engine.bus.sinks) + {counters}
    {
      var bus := engine.bus;
      var i := 0;
      while i < |TrackedEvents|
        invariant 0 <= i <= |TrackedEvents|
        invariant engine.Valid()
        invariant bus.listeners == Subscribe(old(bus.listeners), TrackedEvents[..i], Events.Track(counters))
        invariant bus.sinks == old(bus.sinks) + (if i == 0 then {} else {counters})
      {
        assert TrackedEvents[..i + 1][..i] == TrackedEvents[..i];
        bus.On(TrackedEvents[i], Events.Track(counters));
        i := i + 1;
      }
      assert TrackedEvents[..i] == TrackedEvents;
    }

    /**
     * `get_analytics`: the engine's four sizes, copies of both counters, the time since the start
     * and, when some lobby exists, players per lobby.
     */
    function GetAnalytics(now: int): (r: Snapshot)
      reads engine, counters
      ensures r.uptime == now - startTime
      ensures r.totalLobbies == |engine.lobbies| && r.totalPlayers == |engine.players|
      ensures r.totalBots == |engine.bots| && r.totalParties == |engine.parties|
      ensures r.eventCounts == counters.eventCounts && r.metrics == counters.metrics
      ensures r.avgPlayersPerLobby.Some? <==> |engine.lobbies| > 0
      ensures r.avgPlayersPerLobby.Some? ==>
        r.avgPlayersPerLobby.value.denominator == r.totalLobbies > 0 &&
        r.avgPlayersPerLobby.value.numerator == r.totalPlayers
    {
      Snapshot(
        now - startTime,
        |engine.lobbies|, |engine.players|, |engine.bots|, |engine.parties|,
        counters.eventCounts, counters.metrics,
        if engine.lobbies != map[] then Some(Ratio(|engine.players|, |engine.lobbies|)) else None)
    }
  }
}
