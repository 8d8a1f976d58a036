# Joinly lobby and matchmaking core in Dafny

Joinly is a lobby and matchmaking server. This project models its in-memory core:

- **Players and bots.**
  - Players heartbeat and ready up.
  - Bots auto-ready after a behaviour-dependent delay.
- **Lobbies.** A lobby has a bounded set of seated players and bots. It moves from `waiting` to `ready` once everyone is ready.
- **The lobby engine.** It is the registry of lobbies, players, parties and bots.
  - It runs every join through a list of join rules.
  - It announces every change on one event bus.
  - The bus keeps a bounded history.
- **Parties and permissions.**
- **Matchmaking.**
  - Queues of tickets with lazy expiry.
  - A matcher that sorts the active tickets by skill, cuts them into windows of equal size and keeps each window whose skill spread is small enough.
  - A greedy team balancer.
- **Services.**
  - The bot manager.
  - The presence sweep, which unseats players whose heartbeat is stale.
  - Event analytics.
- **Storage.**
  - An LRU cache with TTLs.
  - The storage manager's key namespaces.
- **The native C++ helpers.**
  - A key-value store.
  - A password "hash" with its verifier.

**How the source is mapped:**

- Objects the source updates in place are classes. Examples are players, bots, lobbies, the engine, the bus, queues and the cache.
- Values the source builds and returns are datatypes and functions.
- Loops are methods with invariants. Each method is specified against a function or predicate, and the properties are proved about that function as lemmas.
- Clock reads become `now` parameters. They are integer milliseconds; the cache uses the unit of its TTLs.
  - A pass of the matcher takes one scan time `now` for the expiry scan of every queue. The `time.time()` reading that names its m-th match lobby is `clock(m)`.
- Generated ids (uuids) and random draws are parameters.
- The abstract storage backend is a map with a flag for a failing database.
- JSON is an opaque encoding with an exact decoder.
- `print` inside an `except` block is a recorded, swallowed failure.
- The event bus keeps three ghost logs:
  - `emitted`: every record ever emitted;
  - `deliveries`: every listener call and whether it raised;
  - `sinks`: every analytics counter ever subscribed.

  Contracts about announcements are stated over these logs.

The source's boolean queries are predicates that the contracts use:

- `is_alive` is `Players.Player.IsAlive`.
- `has_permission` and `is_admin` are `Permissions.PermissionManager.HasPermission` and `Permissions.PermissionManager.IsAdmin`.
- `get_player_count`, `get_bot_count` and `is_full` are `Lobbies.LobbyContext.GetPlayerCount`, `Lobbies.LobbyContext.GetBotCount` and `Lobbies.LobbyContext.IsFull`.
- `is_leader` and `get_member_count` are `Parties.Party.IsLeader` and `Parties.Party.GetMemberCount`.
- `CacheEntry.is_expired` is `Cache.Entry.IsExpired`.

## Model

| member | source | states |
|---|---|---|
| Players.Player.constructor | backend/core/player.py:5-17 | a new player is unready, connected, with no team, lobby or party; skill is the metadata's `skill_rating` or 1000 |
| Players.Player.SetReady | backend/core/player.py:19-20 | the ready flag becomes the argument |
| Players.Player.SetTeam | backend/core/player.py:22-23 | the team becomes the argument |
| Players.Player.Heartbeat | backend/core/player.py:25-27 | the heartbeat is now and the player is connected, hence alive for any positive timeout |
| Bots.Bot.constructor | backend/core/bot.py:6-19 | each profile key is read with its default (username `Bot_<4 chars>`, skill 1000, `normal`, auto-ready, 2 s); the bot is unready and unseated |
| Bots.Bot.Update | backend/core/bot.py:21-24 | the bot ends ready iff it was ready or auto-ready is due; it never becomes unready |
| Bots.Bot.SetTeam | backend/core/bot.py:26-27 | the team becomes the argument |
| Bots.Bot.Tick | backend/core/bot.py:29-40 | only an aggressive (after more than 1 s) or passive (after more than 5 s) bot refreshes its last action, to now; then `update` |
| Bots.NextActionIdempotent | backend/core/bot.py:29-40 | a second tick at the same instant changes the last action no further |
| Behaviors.AvailableBehaviors | backend/bots/behavior.py:41-42 | the four registered names, normal first |
| Behaviors.ExecuteBehavior | backend/bots/behavior.py:13-15 | the bot is readied exactly as its named behaviour readies it, an unknown name as normal |
| Behaviors.NormalBehavior | backend/bots/behavior.py:17-20 | ready iff already ready or auto-ready with more than the delay elapsed |
| Behaviors.AggressiveBehavior | backend/bots/behavior.py:22-25 | ready iff already ready or auto-ready with more than half the delay elapsed |
| Behaviors.PassiveBehavior | backend/bots/behavior.py:27-30 | ready iff already ready or auto-ready with more than 1.5 times the delay elapsed |
| Behaviors.RandomBehavior | backend/bots/behavior.py:32-36 | ready iff already ready or auto-ready with more than the drawn delay elapsed; the delay is the floor of a draw in [0.5 d, 2 d], which decides the same comparison against integer milliseconds |
| Behaviors.ThresholdsOrdered | backend/bots/behavior.py:17-36 | passive due implies normal due implies aggressive due; random is due after 2 d and only after d/2 |
| Behaviors.UnknownIsNormal | backend/bots/behavior.py:13-15 | a name outside the registry behaves exactly as normal |
| Behaviors.NormalMatchesUpdate | backend/bots/behavior.py:17-20 | the normal behaviour readies at exactly the moment the bot's own `update` does |
| Parties.Party.constructor | backend/core/party.py:5-17 | one member, the leader, with the leader role; no lobby |
| Parties.Party.AddMember | backend/core/party.py:19-30 | added iff fewer than five members and not already a member; then filed as `member` at the end of the order, otherwise nothing changes |
| Parties.Party.RemoveMember | backend/core/party.py:32-39 | a non-member changes nothing; a removed leader is replaced by the earliest remaining member, who gets the leader role; the last member leaves a dangling leader id |
| Parties.Party.GetMemberIds | backend/core/party.py:47-48 | the member ids, each once, in join order |
| Parties.LeaderRoleIsLeader | backend/core/party.py:41-42 | a member holding the leader role is the leader |
| Parties.MembersBounded | backend/core/party.py:19-21 | a party never exceeds five members |
| Parties.RemovalConsistent | backend/core/party.py:32-39 | deleting a member keeps the party consistent, and some member remains to be promoted unless it was the last |
| Parties.PromotionConsistent | backend/core/party.py:36-39 | promoting a member to leader keeps the party consistent |
| Permissions.DefaultRoles | backend/core/permissions.py:16-33 | the three roles: admin with its eight permissions, moderator with three, player with none |
| Permissions.PermissionManager.constructor | backend/core/permissions.py:14-33 | no player entries, the default role table |
| Permissions.PermissionManager.GrantPermission | backend/core/permissions.py:35-38 | the player's set gains the permission (created when absent) and it is then held |
| Permissions.PermissionManager.RevokePermission | backend/core/permissions.py:40-42 | the permission is no longer held; an unknown player changes nothing |
| Permissions.PermissionManager.AssignRole | backend/core/permissions.py:49-51 | a known role replaces the player's set by its own, so afterwards the player holds a permission iff the role grants it; an unknown role changes nothing; no other player's permissions change |
| Permissions.PermissionManager.GetPermissions | backend/core/permissions.py:53-54 | exactly the permissions the player holds, empty for an unknown player |
| Permissions.RolesNested | backend/core/permissions.py:16-33 | player's permissions are within moderator's, moderator's within admin's, and moderator lacks `admin` |
| Rules.DefaultRules | backend/core/rules.py:15-18 | three rules named lobby_not_full, player_not_in_lobby, lobby_accepting, in that order |
| Rules.WithoutRule | backend/core/rules.py:23-24 | exactly the rules whose name differs are kept |
| Rules.RuleEngine.constructor | backend/core/rules.py:11-13 | the rule list is the default rules |
| Rules.RuleEngine.AddRule | backend/core/rules.py:20-21 | the rule is appended at the end |
| Rules.RuleEngine.RemoveRule | backend/core/rules.py:23-24 | every rule of that name is dropped, the rest kept in order |
| Rules.RuleEngine.CanJoin | backend/core/rules.py:26-34 | true iff every rule passes; rules run in order and the first one that fails or raises stops the scan with false |
| Rules.DefaultAdmits | backend/core/rules.py:15-18 | the default rules admit exactly a non-member joining a waiting or open lobby with room |
| Rules.ReadyLobbyRejects | backend/core/rules.py:18 | a ready lobby admits nobody under the default rules |
| Rules.AddRuleNarrows | backend/core/rules.py:26-34 | with one more rule, a join is admitted iff it was admitted before and the new rule passes |
| Rules.ThrowingRuleRejects | backend/core/rules.py:31-33 | a rule that raises blocks every join |
| Rules.WithoutRuleAppend | backend/core/rules.py:23-24 | removing by name distributes over concatenation (relative order kept) |
| Rules.WithoutRuleIdempotent | backend/core/rules.py:23-24 | removing the same name twice equals removing it once |
| Rules.ValidateAction | backend/core/rules.py:36-49 | start_match iff every listed player is ready, add_bot iff the bot count is below the maximum (default 4), kick_player iff permitted; any other action is allowed |
| Rules.EmptyContextDefaults | backend/core/rules.py:38-40 | with an empty context a match may start, a bot may be added and nobody may be kicked |
| Events.Recent | backend/core/events.py:42-44 | Python `h[-limit:]` for every sign of `limit`: the last `limit` records, all of them for 0, all but the first `-limit` for a negative limit |
| Events.RemoveFirst | backend/core/events.py:18-21 | one occurrence of the listener is taken out, nothing else |
| Events.DeliveriesOf | backend/core/events.py:35-40 | one delivery per listener in subscription order, each with whether it raised |
| Events.EventBus.constructor | backend/core/events.py:6-10 | no listeners and an empty history |
| Events.EventBus.On | backend/core/events.py:12-16 | the listener is appended to the name's list, which is created when absent |
| Events.EventBus.Off | backend/core/events.py:18-21 | an unknown name changes nothing; otherwise the first subscription is removed, and it raises iff there is none |
| Events.EventBus.Emit | backend/core/events.py:23-40 | the record joins the history (the oldest dropped beyond 1000) whether or not anyone listens; every listener is called in order; a raising one neither stops the rest nor reaches the caller; every analytics counter is bumped once per subscription |
| Events.EventBus.Dispatch | backend/core/events.py:35-40 | the deliveries are exactly those of the listener list, and each counter is bumped by its number of subscriptions |
| Events.EventBus.DispatchOne | backend/core/events.py:36-40 | one more delivery, and one more bump for a tracking listener |
| Events.EventBus.GetHistory | backend/core/events.py:42-44 | the last `limit` records of the history, oldest first; all of them for a limit of 0 |
| Events.EventBus.ClearHistory | backend/core/events.py:46-48 | the history is emptied; the subscriptions are untouched |
| Events.HistoryBounded | backend/core/events.py:31-33 | the history never holds more than 1000 records |
| Events.GetHistoryIsLatest | backend/core/events.py:42-44 | `get_history(k)` is the k most recent records emitted since the last clear |
| Metrics.Bump | backend/services/analytics.py:26-27 | a defaultdict read of the key grows by `n`; every other key reads and is present as before |
| Metrics.BumpTwice | backend/services/analytics.py:26-27 | two bumps of one key add up to one bump by their sum |
| Metrics.Counters.constructor | backend/services/analytics.py:8-9 | both counters are empty |
| Metrics.Counters.TrackEvent | backend/services/analytics.py:24-27 | one more occurrence of the event name, and one more `total_events` |
| Metrics.Counters.IncrementMetric | backend/services/analytics.py:50-51 | the metric reads `amount` more; no other metric changes |
| Metrics.Counters.TrackCustomMetric | backend/services/analytics.py:47-48 | the metric is overwritten |
| Metrics.Counters.GetMetric | backend/services/analytics.py:53-54 | the stored value, 0 for a name never set |
| Metrics.Counters.ResetMetrics | backend/services/analytics.py:56-58 | both counters are emptied |
| Analytics.TrackedDistinct | backend/services/analytics.py:15-19 | nine distinct tracked names, `player_disconnected` not among them |
| Analytics.SubscribeLookup | backend/services/analytics.py:21-22 | subscribing to distinct names appends the listener once to each of them and changes no other name |
| Analytics.TrackedOnce | backend/services/analytics.py:21-22 | a fresh counter ends subscribed exactly once to each tracked name and to nothing else |
| Analytics.AnalyticsService.constructor | backend/services/analytics.py:6-12 | empty counters, the start time, and exactly one subscription per tracked name |
| Analytics.AnalyticsService.SetupEventTracking | backend/services/analytics.py:14-22 | `on(name, _track_event)` for each tracked name in order |
| Analytics.AnalyticsService.GetAnalytics | backend/services/analytics.py:29-45 | the engine's four sizes, both counters and the uptime; players per lobby present iff some lobby exists |
| Lobbies.LobbyContext.constructor | backend/core/context.py:7-18 | an empty waiting lobby; the config defaults are 10 players, 4 bots and all-ready required |
| Lobbies.LobbyContext.AddPlayer | backend/core/context.py:20-23 | a lobby that is not full files the player under its id and stamps it with the lobby id; a full lobby changes neither the roster nor the player; validity is kept |
| Lobbies.LobbyContext.RemovePlayer | backend/core/context.py:25-27 | exactly that key goes; an absent key changes nothing |
| Lobbies.LobbyContext.GetPlayer | backend/core/context.py:29-30 | the seated player, or None |
| Lobbies.LobbyContext.AddBot | backend/core/context.py:32-35 | the bot is seated (and given the lobby id) iff there is room; otherwise nothing changes |
| Lobbies.LobbyContext.RemoveBot | backend/core/context.py:37-39 | exactly that key goes |
| Lobbies.LobbyContext.SetPlayerReady | backend/core/context.py:41-44 | a seated player's flag alone changes, then the lobby re-checks readiness; anyone else changes nothing |
| Lobbies.LobbyContext.CheckAllReady | backend/core/context.py:46-57 | false for an empty lobby; otherwise true iff every player is ready and the lobby requires it, in which case the state becomes ready and `lobby_all_ready` is emitted once |
| Lobbies.LobbyContext.View | backend/core/context.py:59-66 | what the join rules see: the player count and the seated ids |
| Lobbies.LobbyContext.Tick | backend/core/context.py:68-70 | every seated bot ends as its `update` leaves it |
| Lobbies.LobbyContext.ToDict | backend/core/context.py:72-84 | the counts, bounds and state, with each seated player and bot id listed once |
| Lobbies.SeatsBounded | backend/core/context.py:20-23 | a lobby never seats more than its maximum (a non-positive maximum as zero) |
| Lobbies.FullMeansNoRoom | backend/core/context.py:65-66 | in a valid lobby (never more players than seats), full means every seat is taken, or the lobby has no seats at all |
| Engine.LeaveRecords | backend/core/engine.py:66-69 | one `player_left` record per id, in order |
| Engine.LobbyEngine.constructor | backend/core/engine.py:13-21 | empty registries, a new bus, the default rules and an empty permission table |
| Engine.LobbyEngine.CreateLobby | backend/core/engine.py:23-28 | a new empty lobby on the shared bus replaces any lobby under the id, and `lobby_created` is emitted |
| Engine.LobbyEngine.GetLobby | backend/core/engine.py:30-31 | the lobby filed under the id, or None |
| Engine.LobbyEngine.DeleteLobby | backend/core/engine.py:33-40 | an unknown id changes nothing; otherwise every seated player leaves (one `player_left` each), the lobby goes and `lobby_deleted` is emitted; the bots stay indexed |
| Engine.LobbyEngine.RemoveAll | backend/core/engine.py:37-38 | each seated player is unseated and dropped from the index, one `player_left` each |
| Engine.LobbyEngine.AddPlayerToLobby | backend/core/engine.py:42-57 | false with nothing changed for an unknown lobby or a refused join; otherwise the lobby seats and stamps the player (its `lobby_id` becomes the lobby's) when it has room, the engine indexes it and `player_joined` is emitted |
| Engine.LobbyEngine.Admit | backend/core/engine.py:48-49 | the join is admitted iff the engine's rules admit it |
| Engine.LobbyEngine.Announce | backend/core/engine.py:53-56 | one record is emitted: it is appended to the emitted log and to the capped history (dropping the oldest when full), each current listener of its name is called once, in order, and each subscribed counter bumps that event's count and the total by the deliveries it receives; listeners, counters and the clear time are unchanged |
| Engine.LobbyEngine.RemovePlayerFromLobby | backend/core/engine.py:59-69 | a player seated in a known lobby is unseated and dropped from the index, and `player_left` is emitted; in every other case nothing changes |
| Engine.LobbyEngine.Unseat | backend/core/engine.py:62-69 | the seated branch: the seat and the index entry go, and one `player_left` is emitted |
| Engine.LobbyEngine.SetPlayerReady | backend/core/engine.py:71-80 | for a seated player the lobby sets the flag (and may emit `lobby_all_ready`), then `player_ready_changed` is emitted; otherwise nothing |
| Engine.LobbyEngine.AddBotToLobby | backend/core/engine.py:82-94 | false only for an unknown lobby; otherwise the lobby seats and stamps the bot when a bot slot is free, the engine indexes it and `bot_joined` is emitted even when the lobby was full |
| Engine.LobbyEngine.RemoveBotFromLobby | backend/core/engine.py:96-106 | a bot seated in a known lobby is unseated and dropped from the index, and `bot_left` is emitted; otherwise nothing |
| Engine.LobbyEngine.CreateParty | backend/core/engine.py:108-112 | a new one-member party replaces any party under the id |
| Engine.LobbyEngine.GetAllLobbies | backend/core/engine.py:114-116 | one summary for each lobby and no other, each once, with its player count, bot count and state |
| Engine.LobbyEngine.GetPlayer | backend/core/engine.py:118-119 | the indexed player, or None |
| Engine.LobbyEngine.GetAllPlayers | backend/core/engine.py:121-123 | every indexed player, once each |
| Engine.LobbyEngine.Tick | backend/core/engine.py:125-130 | every bot of any lobby or the index ends as its update leaves it, and every indexed bot's last action is its tick's |
| Engine.LobbyEngine.TickLobbies | backend/core/engine.py:127-128 | every lobby's bots update |
| Engine.LobbyEngine.TickBots | backend/core/engine.py:129-130 | every indexed bot ticks |
| Tickets.PlayerMetadata | backend/matchmaking/tickets.py:34-37 | the ticket's metadata overlaid on its skill: every metadata key, plus `skill_rating` from the ticket when the metadata lacks it |
| Tickets.MatchTicket.constructor | backend/matchmaking/tickets.py:6-17 | skill 1000 and empty metadata by default; queued, unmatched, priority 0 |
| Tickets.MatchTicket.SetStatus | backend/matchmaking/tickets.py:19-22 | any status is taken; only `matched` stamps the match time |
| Tickets.MatchTicket.GetWaitTime | backend/matchmaking/tickets.py:24-27 | up to the match time when it is set and non-zero (Python truthiness), otherwise up to now |
| Tickets.MatchTicket.ToPlayer | backend/matchmaking/tickets.py:29-38 | a new player with the ticket's id and name, whose skill is the metadata's `skill_rating` when present and the ticket's own otherwise |
| Tickets.MatchedWaitIsFrozen | backend/matchmaking/tickets.py:19-27 | once matched (at a non-zero time) the wait no longer grows |
| Queues.MatchQueue.constructor | backend/matchmaking/queues.py:6-17 | an empty queue with the config defaults 10, 200, no teams, 5, 300 s |
| Queues.MatchQueue.AddTicket | backend/matchmaking/queues.py:19-21 | the ticket is filed under its id (a replaced id keeps its place) and its wait restarts now |
| Queues.MatchQueue.RemoveTicket | backend/matchmaking/queues.py:23-25 | exactly that id goes; an absent id changes nothing |
| Queues.MatchQueue.GetTicket | backend/matchmaking/queues.py:27-28 | the filed ticket, or None |
| Queues.LiveIds | backend/matchmaking/queues.py:34-41 | only ids of tickets that are queued and within the wait limit, in order |
| Queues.MatchQueue.GetActiveTickets | backend/matchmaking/queues.py:30-43 | the tickets queued within the limit, in queue order; every queued ticket past the limit is flipped to `timeout`; no other ticket changes and none is removed |
| Queues.MatchQueue.Scan | backend/matchmaking/queues.py:34-41 | after the loop every ticket is visited and the live ones are collected |
| Queues.MatchQueue.Step | backend/matchmaking/queues.py:35-41 | one more ticket of the loop: a live one joins the result, and the scan progresses by one |
| Queues.MatchQueue.Visit | backend/matchmaking/queues.py:35-41 | one ticket is flipped when lapsed, and is live iff queued and within the limit |
| Queues.MatchQueue.GetQueueLength | backend/matchmaking/queues.py:45-46 | the number of queued tickets: zero iff none is queued, all iff every one is |
| Queues.MatchQueue.ExpiredIds | backend/matchmaking/queues.py:62-66 | exactly the ids of tickets timed out, cancelled or older than an hour |
| Queues.MatchQueue.ClearExpiredTickets | backend/matchmaking/queues.py:58-69 | exactly the tickets timed out, cancelled or older than an hour go, from the ticket map and from the insertion order; the rest are kept unchanged and in their order |
| Queues.MatchQueue.RemoveTickets | backend/matchmaking/queues.py:68-69 | the listed ids go from the ticket map and the insertion order; every other ticket keeps its place |
| Queues.MatchQueue.RemoveNext | backend/matchmaking/queues.py:68-69 | one more listed id has gone from the map and the order |
| Balancer.SortDesc | backend/matchmaking/balancer.py:17 | a permutation of the input in descending skill order |
| Balancer.NumTeams | backend/matchmaking/balancer.py:19 | the floored quotient (k·size ≤ n < (k+1)·size); no teams for a negative size |
| Balancer.MinIndex | backend/matchmaking/balancer.py:24 | the first position holding the least sum |
| Balancer.Place | backend/matchmaking/balancer.py:24-26 | one greedy step keeps one team and one sum per team |
| Balancer.Deal | backend/matchmaking/balancer.py:20-26 | the deal into k teams keeps one sum per team |
| Balancer.BalanceBySkill | backend/matchmaking/balancer.py:8-28 | the greedy deal of the descending sort into `len // team_size` teams, or the `ZeroDivisionError` / empty-`min` error it raises |
| Balancer.DealSorted | backend/matchmaking/balancer.py:23-26 | the loop deals the sorted tickets exactly as the greedy specification does |
| Balancer.PlaceOne | backend/matchmaking/balancer.py:24-26 | one ticket joins the first lightest team, whose sum grows by its skill |
| Balancer.FlattenAppend | backend/matchmaking/balancer.py:25 | appending to one team adds exactly that ticket to the teams' members |
| Balancer.DealKeepsAll | backend/matchmaking/balancer.py:23-26 | the deal places every ticket exactly once |
| Balancer.DealSums | backend/matchmaking/balancer.py:23-26 | each tracked sum is the sum of its team's skills |
| Balancer.BalanceIsPartition | backend/matchmaking/balancer.py:16-28 | with at least one team, the result has `len // team_size` teams, holds every ticket once, and the deal's tracked sums are the team skills |
| Balancer.BalanceErrors | backend/matchmaking/balancer.py:19-24 | raises ZeroDivisionError iff the size is 0, and the empty-`min` error iff non-empty input makes no team; empty input gives no teams |
| Balancer.DealGap | backend/matchmaking/balancer.py:23-26 | with every skill in [0, top], no team's sum exceeds another's by more than top |
| Balancer.BalanceGap | backend/matchmaking/balancer.py:16-28 | with non-negative skills, the heaviest and lightest teams differ by at most the largest single skill |
| Balancer.SortDescSorted | backend/matchmaking/balancer.py:17 | sorting input already in descending order changes nothing |
| Balancer.BalanceOfSorted | backend/matchmaking/balancer.py:16-28 | descending input is dealt as it stands |
| Balancer.BalanceExample | backend/matchmaking/balancer.py:16-28 | skills 100, 90, 80, 70 in teams of two give [[100, 70], [90, 80]] |
| Balancer.UncappedExample | backend/matchmaking/balancer.py:16-28 | skills 100, 1, 1, 1 in teams of two give teams of one and three: sizes are not capped |
| Balancer.SortAsc | backend/matchmaking/matcher.py:72 | a permutation of the input in ascending skill order |
| Matchmaking.MaxKey | backend/matchmaking/matcher.py:79 | an upper bound of the group's skills that some ticket attains |
| Matchmaking.MinKey | backend/matchmaking/matcher.py:79 | a lower bound of the group's skills that some ticket attains |
| Matchmaking.WindowsShape | backend/matchmaking/matcher.py:74-82 | every kept group has exactly `players_per_match` tickets and a spread within the limit, and there are at most `len // n` groups |
| Matchmaking.WindowsDisjoint | backend/matchmaking/matcher.py:74-82 | no ticket is used more often than it occurs |
| Matchmaking.SortedSpread | backend/matchmaking/matcher.py:79 | in a sorted window the spread is the last skill minus the first |
| Matchmaking.SortAscSorted | backend/matchmaking/matcher.py:72 | sorting input already in ascending order changes nothing |
| Matchmaking.MatchOfSorted | backend/matchmaking/matcher.py:65-84 | sorted active tickets are windowed as they stand |
| Matchmaking.MatchSpecEdges | backend/matchmaking/matcher.py:69-74 | fewer tickets than a match gives no groups; a match size of 0 raises and nothing else does |
| Matchmaking.TwoCloseMatches | backend/matchmaking/matcher.py:65-84 | four sorted tickets in two close pairs make two matches |
| Matchmaking.TwoMatchesExample | backend/matchmaking/matcher.py:65-84 | skills 900, 950, 1800, 1850 in twos with spread 100 give two matches |
| Matchmaking.NoMatchExample | backend/matchmaking/matcher.py:65-84 | skills 900 and 1800 with spread 100 give no match |
| Matchmaking.CollectWindows | backend/matchmaking/matcher.py:74-82 | the loop keeps exactly the full windows within the spread, in order |
| Matchmaking.MatchLobbyId | backend/matchmaking/matcher.py:87 | the id starts with `match_` |
| Matchmaking.MatchLobbyIdInjective | backend/matchmaking/matcher.py:87 | matches made in different milliseconds get different lobby ids |
| Matchmaking.JoinRecords | backend/matchmaking/matcher.py:103 | one `player_joined` record per id, in order |
| Matchmaking.SeatsOfTeams | backend/matchmaking/matcher.py:97-104 | seating the teams seats every ticket of every team in order, each with the index of a team that holds it |
| Matchmaking.PlainSeatsOfGroup | backend/matchmaking/matcher.py:106-109 | without teams the tickets are seated as they come |
| Matchmaking.SeatingSeatsGroup | backend/matchmaking/matcher.py:97-109 | a match seats exactly its group: in order without teams, up to order in team mode; team mode raises for a size of 0 or a group smaller than one team |
| Matchmaking.MatchIdSeqAt | backend/matchmaking/matcher.py:87 | the j-th match of a pass gets the lobby id of the j-th clock reading |
| Matchmaking.PassConcat | backend/matchmaking/matcher.py:60-63 | the lobby ids of a pass split at any match into those before it and those from it on |
| Matchmaking.Matcher.constructor | backend/matchmaking/matcher.py:9-15 | no queues, over the given engine |
| Matchmaking.Matcher.CreateQueue | backend/matchmaking/matcher.py:27-31 | a new empty queue with the config is filed under the id, replacing any old one (which keeps its place in the order) |
| Matchmaking.Matcher.GetQueue | backend/matchmaking/matcher.py:33-34 | the filed queue, or None |
| Matchmaking.Matcher.AddTicket | backend/matchmaking/matcher.py:36-42 | true iff the queue exists, in which case the ticket is filed there; otherwise nothing changes |
| Matchmaking.Matcher.RemoveTicket | backend/matchmaking/matcher.py:44-48 | the ticket leaves a known queue; an unknown queue changes nothing |
| Matchmaking.Matcher.FindMatches | backend/matchmaking/matcher.py:65-84 | the active tickets (lapsed ones flipped to timeout) give exactly the groups, or the error for a match size of 0, that `MatchSpec` describes |
| Matchmaking.Matcher.Join | backend/matchmaking/matcher.py:101-103 | the ticket's new player, with the seat's team, asks to join: refused for an unknown lobby; otherwise accepted iff the join rules admit it on the lobby as it was, in which case it is indexed, announced, and seated and stamped with the lobby's id when the lobby has room; otherwise it carries no lobby id; the players made for earlier seats are untouched |
| Matchmaking.Matcher.Enter | backend/matchmaking/matcher.py:99-103 | one join is one `Offer` of the seat: the verdict extends the admission mask, the player carries the lobby's id exactly when the offer seated it, and the lobby's roster and the engine's index become those of the offer; the lobby map, rules, lobby state and earlier players' lobby ids are unchanged |
| Matchmaking.Offer | backend/core/engine.py:42-57 | one `add_player_to_lobby` of a seat's player: the rules' verdict on the current view, the player indexed when admitted and also seated (and stamped) when the lobby has room (`Matchmaking.OfferIs` states it once the verdict is known) |
| Matchmaking.Admitting | backend/matchmaking/matcher.py:99-109 | the seats offered in order: one verdict and one seated-or-not flag per seat (`Matchmaking.AdmittingStep` adds one seat at a time) |
| Matchmaking.SeatMap | backend/matchmaking/matcher.py:99-109 | the players of a run of seats by id; its keys are exactly the seats' player ids |
| Matchmaking.SeatMapAt | backend/matchmaking/matcher.py:99-109 | without repeated players, each seat's player is filed under its id |
| Matchmaking.DefaultRulesSeatEveryone | backend/matchmaking/matcher.py:89-109 | under the default rules, a fresh `Waiting` lobby with a seat for each of distinct players admits every seat, and every join seats (and so stamps) its player, seated and indexed under its id |
| Matchmaking.Matcher.SeatAll | backend/matchmaking/matcher.py:97-109 | every seated ticket leaves the queue; the join verdicts, the lobby's roster and the engine's index are exactly those of offering the seats in order (`Admitting`); each made player has its seat's id and team, and carries the lobby's id exactly when its join seated it; the accepted players are indexed and announced in order; an unknown lobby accepts and stamps nobody |
| Matchmaking.Matcher.JoinOne | backend/matchmaking/matcher.py:99-103 | one seat's join: the engine's index and history, the admissions, the lobby's roster and the made players' stamps grow by exactly this seat's `Offer` |
| Matchmaking.Matcher.SeatOne | backend/matchmaking/matcher.py:99-104 | one more seat joins and its ticket leaves the queue: the removals, announcements, admissions, stamps and made players so far grow by this seat's |
| Matchmaking.Matcher.RemoveOne | backend/matchmaking/matcher.py:104 | one more seat's ticket leaves the queue; the joins so far are kept |
| Matchmaking.Matcher.CreateMatch | backend/matchmaking/matcher.py:86-115 | a lobby sized for exactly the match is made under `match_<now>`; then the seats join in order, each ticket leaving the queue, and `match_created` follows; the new lobby's roster and the engine's index are those of offering the seats to an empty `Waiting` lobby, each made player with its seat's team and stamped with `match_<now>` exactly when its join seated it; when balancing raises only the lobby has been made |
| Matchmaking.Matcher.Populate | backend/matchmaking/matcher.py:97-115 | balancing, seating and `match_created`, with the lobby's roster, the engine's index and the made players' lobby ids those of offering the seats in order; a raise changes nothing |
| Matchmaking.Matcher.SeatAndAnnounce | backend/matchmaking/matcher.py:97-115 | every seat's ticket leaves the queue, the accepted players are indexed and announced in order and then `match_created`; the lobby's roster, the engine's index and the made players' lobby ids are those of offering the seats in order |
| Matchmaking.Matcher.AnnounceMatch | backend/matchmaking/matcher.py:111-115 | one `match_created` record with the lobby id, queue id and player count; the seating is kept |
| Matchmaking.Matcher.ProcessQueues | backend/matchmaking/matcher.py:58-63 | the queues in insertion order until the first raise; unreached queues are untouched and lobbies are only added |
| Matchmaking.Matcher.VisitQueue | backend/matchmaking/matcher.py:60-63 | one more queue of the pass is processed |
| Matchmaking.Matcher.RunQueue | backend/matchmaking/matcher.py:60-63 | a queue's pass only removes tickets and only adds lobbies |
| Matchmaking.Matcher.ProcessQueue | backend/matchmaking/matcher.py:60-63 | a queue's matches are found, lapsed tickets flipped to timeout, then made one by one up to the first raise, the m-th at clock(m); the tickets removed are exactly those the made matches seat, and the lobbies added are exactly those matches' ids |
| Matchmaking.Matcher.MakeMatches | backend/matchmaking/matcher.py:62-63 | the found matches are made in order until one raises, removing exactly the tickets they seat and adding exactly their lobby ids |
| Matchmaking.Matcher.MakeOne | backend/matchmaking/matcher.py:63 | one match: one more lobby id; it raises iff balancing does, and removes exactly the tickets it seats (none on a raise) |
| BotManagement.Attempts | backend/bots/bot_manager.py:25 | `range(count)` runs `count` times, none for a negative count |
| BotManagement.FiledKeys | backend/bots/bot_manager.py:23-28 | filing the new bots adds exactly their ids, each under its own id |
| BotManagement.FiledSize | backend/bots/bot_manager.py:23-28 | distinct new ids grow the registry by exactly that many |
| BotManagement.Joins | backend/bots/bot_manager.py:61-64 | one `bot_joined` record per added bot, in order |
| BotManagement.Slots | backend/bots/bot_manager.py:57-58 | the attempts are the smaller of the free seats and the free bot slots |
| BotManagement.TallyKeys | backend/bots/bot_manager.py:80-85 | the tally has a key for exactly the names that occur, each at least 1 |
| BotManagement.TallySum | backend/bots/bot_manager.py:80-85 | the tally's counts add up to the number of bots counted |
| BotManagement.SeenKinds | backend/bots/bot_manager.py:82-84 | reading every bot's behaviour meets exactly the behaviours in use |
| BotManagement.TallyCounts | backend/bots/bot_manager.py:80-85 | each name's count in the tally is the number of times it occurs |
| BotManagement.ListingCount | backend/bots/bot_manager.py:82-84 | reading every bot's behaviour meets each behaviour once per bot that follows it |
| BotManagement.TallyOfListing | backend/bots/bot_manager.py:80-85 | the tally over all bots gives each behaviour the number of bots that follow it |
| BotManagement.UpdateBot | backend/bots/bot_manager.py:69-71 | the bot's tick, its ready flag after the tick's update, then its behaviour |
| BotManagement.BotManager.constructor | backend/bots/bot_manager.py:8-12 | no bots |
| BotManagement.BotManager.CreateBot | backend/bots/bot_manager.py:14-21 | a new unseated bot with the profile is filed under its id |
| BotManagement.BotManager.CreateBots | backend/bots/bot_manager.py:23-28 | `max(count, 0)` new bots, the i-th with the i-th id, all filed |
| BotManagement.BotManager.AddBotToLobby | backend/bots/bot_manager.py:30-37 | a bot is returned iff the lobby exists; it is filed in both registries and announced, and seated in the lobby and stamped with its id when a bot slot is free (no lobby id otherwise); a refused one is deleted again and leaves the engine untouched |
| BotManagement.BotManager.RemoveBot | backend/bots/bot_manager.py:39-44 | an unknown id changes nothing; a known bot is unseated through the engine when its lobby id is truthy and is always forgotten |
| BotManagement.BotManager.GetBot | backend/bots/bot_manager.py:46-47 | the filed bot, or None |
| BotManagement.BotManager.GetAllBots | backend/bots/bot_manager.py:49-50 | every bot, once each |
| BotManagement.BotManager.FillLobbyWithBots | backend/bots/bot_manager.py:52-66 | nothing for an unknown lobby; otherwise `Slots` new bots with the given ids, each filed in both registries and in the lobby's bots, stamped with the lobby's id, and announced |
| BotManagement.BotManager.FillStep | backend/bots/bot_manager.py:61-64 | one attempt succeeds, since the lobby stays registered |
| BotManagement.BotManager.Offer | backend/bots/bot_manager.py:61-64 | with a bot slot free, the new bot is filed in both registries, seated in the lobby and stamped with its id, and `bot_joined` is emitted; bots added before keep their lobby ids |
| BotManagement.BotManager.UpdateAllBots | backend/bots/bot_manager.py:68-71 | every bot ticks and runs its behaviour; a bot whose auto-ready is due ends ready |
| BotManagement.BotManager.CountByBehavior | backend/bots/bot_manager.py:80-85 | a count for exactly the behaviours in use, each equal to the number of bots following that behaviour, summing to the number of bots |
| BotManagement.BotManager.CountInLobbies | backend/bots/bot_manager.py:87-88 | the bots with a truthy lobby id: at most all bots, and 0 iff none is seated |
| BotManagement.BotManager.GetBotStats | backend/bots/bot_manager.py:73-78 | the total, the number of bots following each behaviour in use, summing to it, and the seated count |
| Presence.Announcements | backend/services/presence.py:40-46 | nothing for a falsy lobby id; otherwise the removal's `player_left` when the player sat there, then `player_disconnected` |
| Presence.RemovedDeparted | backend/services/presence.py:40-42 | only departing players are unseated |
| Presence.DisconnectCount | backend/services/presence.py:40-46 | one `player_disconnected` per departure with a truthy lobby id, plus one `player_left` per departure that was seated |
| Presence.DisconnectStep | backend/services/presence.py:40-46 | one more departure extends the announcements and removals by its own |
| Presence.PresenceService.constructor | backend/services/presence.py:6-11 | the service over the engine, with a 30 s timeout |
| Presence.PresenceService.CheckPlayerPresence | backend/services/presence.py:31-46 | the stale players are collected, each once, and marked disconnected before any removal; then each one with a truthy lobby id is unseated when it still sits in that lobby, and announced; every lobby loses exactly the departing players that sat in it, and the engine drops exactly those |
| Presence.PresenceService.MarkStale | backend/services/presence.py:35-38 | exactly the stale players are listed with the lobby id they had and marked disconnected; nobody else changes |
| Presence.PresenceService.Disconnect | backend/services/presence.py:40-46 | the announcements and removals of all the departures, from the seats as the loop found them; every lobby loses exactly the departing players that sat in it |
| Presence.PresenceService.DisconnectOne | backend/services/presence.py:41-46 | one more departure is handled: the announcements and removals grow by its own, its lobby loses its player if it sat there, and no other lobby changes |
| Presence.PresenceService.Leave | backend/services/presence.py:41-46 | one departure: unseated from its lobby and dropped by the engine when it sits there, then announced; no other lobby and no other departure's seat changes |
| Presence.PresenceService.DropAndAnnounce | backend/services/presence.py:41-46 | for a truthy lobby id: `player_left` and the removal when the player sits there, then `player_disconnected`; other lobbies are unchanged |
| Presence.PresenceService.DisconnectNext | backend/services/presence.py:40-46 | one more departure moves the bus, the index and every roster on by its own |
| Presence.PresenceService.RostersAfter | backend/services/presence.py:41-42 | a removal confined to one departure's lobby moves the rosters on by `Unseat` |
| Presence.Unseat | backend/services/presence.py:41-42 | the rosters after one departure: only its lobby changes, losing its player when it sat there |
| Presence.UnseatStep | backend/services/presence.py:40-42 | one more departure keeps every roster equal to its first roster minus the players unseated so far |
| Presence.UnseatedStep | backend/services/presence.py:40-42 | the same for one lobby |
| Presence.UnseatedDeparted | backend/services/presence.py:40-42 | a lobby only loses players that the sweep unseats |
| Presence.PresenceService.SitsFrame | backend/services/presence.py:41-42 | removing one player from one lobby changes no other player's seat |
| Presence.PresenceService.UpdatePlayerPresence | backend/services/presence.py:48-51 | a known player heartbeats (and is then alive); an unknown one changes nothing |
| Presence.PresenceService.GetOnlineCount | backend/services/presence.py:53-54 | the connected players: at most all, and all iff every player is connected |
| Cache.Entry.Access | backend/storage/cache.py:19-21 | one more use at now; the value, the creation time and the expiry are unchanged |
| Cache.NewEntry | backend/storage/cache.py:7-12 | a fresh entry is live at creation iff it has no TTL or a non-negative one |
| Cache.ExpiryMonotone | backend/storage/cache.py:14-17 | once expired, an entry stays expired |
| Cache.NoTtlNeverExpires | backend/storage/cache.py:15-16 | an entry without a TTL never expires |
| Seqs.Kept | backend/storage/cache.py:72-74 | the keys not dropped, in their order |
| Seqs.KeptLists | backend/storage/cache.py:72-74 | filtering an exact key order lists exactly the keys not dropped |
| Seqs.KeptStep | backend/matchmaking/queues.py:68-69 | removing one more key from a filtered order is filtering by one more key |
| Cache.ExpiredKeys | backend/storage/cache.py:72 | exactly the keys whose entries are expired, in order |
| Cache.Dropped | backend/storage/cache.py:51-52 | deleting a key keeps the order exact and within the bound; an absent key changes nothing |
| Cache.Appended | backend/storage/cache.py:57 | a new key at the recent end keeps the order exact and within the bound |
| Cache.Evicted | backend/storage/cache.py:54-55 | evicting the front key keeps the order exact |
| Cache.Swept | backend/storage/cache.py:70-74 | after the sweep the rest is exact, within the bound, and all live |
| Cache.LRUCache.constructor | backend/storage/cache.py:24-29 | empty, with zero hits and misses |
| Cache.LRUCache.Get | backend/storage/cache.py:31-47 | a live entry is a hit: returned, used and moved to the recent end; a missing key is a miss; an expired one is a miss and is deleted |
| Cache.LRUCache.Set | backend/storage/cache.py:49-57 | the old entry goes first; at capacity the least recently used entry is evicted (raising on an empty cache when the capacity is not positive); the new entry goes to the recent end |
| Cache.LRUCache.Delete | backend/storage/cache.py:59-62 | the key's entry goes; an absent key changes nothing |
| Cache.LRUCache.Clear | backend/storage/cache.py:64-68 | no entries and zero hits and misses |
| Cache.LRUCache.CleanupExpired | backend/storage/cache.py:70-74 | exactly the expired entries go; the rest keep their values and order |
| Cache.LRUCache.DeleteAll | backend/storage/cache.py:73-74 | the listed keys go, the order otherwise kept |
| Cache.LRUCache.Size | backend/storage/cache.py:81 | the number of entries, never above `max_size` |
| Storage.LobbyKey | backend/storage/base.py:44 | `lobby:` followed by the id |
| Storage.PlayerKey | backend/storage/base.py:62 | `player:` followed by the id |
| Storage.NamespacesDisjoint | backend/storage/base.py:42-64 | a lobby key is never a player key |
| Storage.KeysInjective | backend/storage/base.py:42-64 | each key names exactly one id |
| Storage.Encode | backend/storage/base.py:45 | the encoding is never empty |
| Storage.DecodeEncode | backend/storage/base.py:45-53 | decoding an encoding gives the record back |
| Storage.Load | backend/storage/base.py:51-54 | an absent or empty value gives None; a value that decodes gives its record; any other raises |
| Storage.StripAll | backend/storage/base.py:76 | Python `replace(p, "")` never lengthens the key |
| Storage.StripAbsent | backend/storage/base.py:76 | where the prefix does not occur, nothing is taken out |
| Storage.StripLobbyKey | backend/storage/base.py:74-76 | a lobby id free of `lobby:` is listed as itself |
| Storage.StripPlayerKey | backend/storage/base.py:78-80 | a player id free of `player:` is listed as itself |
| Storage.StripCollision | backend/storage/base.py:74-76 | the ids `lobby:x` and `x` are listed alike |
| Storage.StrippedAll | backend/storage/base.py:74-80 | each listed key stripped of every occurrence of the prefix, in order |
| Storage.Backend.constructor | backend/storage/base.py:4-35 | an empty, disconnected store |
| Storage.Backend.Connect | backend/storage/base.py:6-7 | connected |
| Storage.Backend.Disconnect | backend/storage/base.py:10-11 | disconnected |
| Storage.Backend.Put | backend/storage/base.py:14-15 | true iff the store is not failing, in which case the value is stored |
| Storage.Backend.Fetch | backend/storage/base.py:18-19 | the stored value, or None when absent or failing |
| Storage.Backend.Remove | backend/storage/base.py:22-23 | true iff not failing, whether or not the key was there |
| Storage.Backend.KeysWith | backend/storage/base.py:30-31 | every key beginning with the prefix, once each; none when failing |
| Storage.StorageManager.constructor | backend/storage/base.py:38-40 | the backend is connected |
| Storage.StorageManager.SaveLobby | backend/storage/base.py:42-46 | the encoding goes under `lobby:<id>` and loads back as the record; the backend's result |
| Storage.StorageManager.LoadLobby | backend/storage/base.py:48-54 | None when nothing is stored under the key |
| Storage.StorageManager.DeleteLobby | backend/storage/base.py:56-58 | only `lobby:<id>` goes, after which its load is None |
| Storage.StorageManager.SavePlayer | backend/storage/base.py:60-64 | the encoding goes under `player:<id>` and loads back; no lobby's load changes |
| Storage.StorageManager.LoadPlayer | backend/storage/base.py:66-72 | None when nothing is stored under the key |
| Storage.StorageManager.GetAllLobbies | backend/storage/base.py:74-76 | the stored lobby keys stripped of `lobby:`; every stored id free of it is listed; none when failing |
| Storage.StorageManager.GetAllPlayers | backend/storage/base.py:78-80 | the stored player keys stripped of `player:`; every stored id free of it is listed; none when failing |
| Storage.StorageManager.Close | backend/storage/base.py:82-83 | the backend is disconnected |
| NativeStorage.Stored | native/storage/joinly_storage.cpp:9-13 | a null argument changes nothing; otherwise the key maps to the value and no other key changes |
| NativeStorage.Erased | native/storage/joinly_storage.cpp:28-36 | the key is gone and no other key changes |
| NativeStorage.Copied | native/storage/joinly_storage.cpp:15-26 | a value is copied out iff the arguments are non-null, the size is positive, the key is stored and the value leaves room for its NUL |
| NativeStorage.GetAfterSet | native/storage/joinly_storage.cpp:9-26 | a get with room reads back what was set |
| NativeStorage.GetNeedsRoom | native/storage/joinly_storage.cpp:22 | a buffer exactly as long as the value is refused |
| NativeStorage.OtherKeysKept | native/storage/joinly_storage.cpp:9-36 | setting or deleting one key changes no other key's read |
| NativeStorage.GetAfterDelete | native/storage/joinly_storage.cpp:15-36 | a deleted key reads as absent |
| NativeStorage.NativeStore.constructor | native/storage/joinly_storage.cpp:5 | the store starts empty |
| NativeStorage.NativeStore.NativeSet | native/storage/joinly_storage.cpp:9-13 | -1 on a null argument, else 0 with the value stored |
| NativeStorage.NativeStore.NativeGet | native/storage/joinly_storage.cpp:15-26 | for a NUL-free key: 0 iff the value can be copied, and then the value and its NUL fill the front of the buffer; -1 leaves the buffer untouched |
| NativeStorage.NativeStore.NativeDelete | native/storage/joinly_storage.cpp:28-36 | for a NUL-free key: -1 on a null or absent key, else 0 with the key erased |
| NativeStorage.DeleteTwice | native/storage/joinly_storage.cpp:28-36 | deleting a stored key succeeds once and then fails |
| CStrings.Strcpy | native/storage/joinly_storage.cpp:24 | the string and a NUL fill the front of the buffer; nothing after them changes |
| Decimal.IntToString | native/crypto/joinly_crypto.cpp:14 | `std::to_string` never gives the empty string |
| Decimal.ParseNatToString | native/crypto/joinly_crypto.cpp:14 | reading back a rendered number gives the number |
| Decimal.IntToStringInjective | native/crypto/joinly_crypto.cpp:14 | different salts render differently |
| NativeCrypto.Hashed | native/crypto/joinly_crypto.cpp:14 | `HASH_`, the salt, `_`, then the password |
| NativeCrypto.NoUnderscoreInDecimal | native/crypto/joinly_crypto.cpp:14 | a rendered salt holds no `_` |
| NativeCrypto.LastIndex | native/crypto/joinly_crypto.cpp:28 | `rfind`: the last position of the character, or none iff it does not occur |
| NativeCrypto.VerifyPassword | native/crypto/joinly_crypto.cpp:22-34 | for NUL-free `const char*` arguments: -1 on a null argument or a hash without `_`; otherwise 0 iff the text after the last `_` is the password |
| NativeCrypto.VerifyLastField | native/crypto/joinly_crypto.cpp:28-33 | only the text after the last `_` is compared |
| NativeCrypto.VerifyOwnHash | native/crypto/joinly_crypto.cpp:8-34 | a password without `_` verifies against its own hash |
| NativeCrypto.VerifyRejectsUnderscore | native/crypto/joinly_crypto.cpp:8-34 | a password with `_` never verifies against its own hash |
| NativeCrypto.VerifyHashed | native/crypto/joinly_crypto.cpp:8-34 | a password verifies against its own hash iff it has no `_` |
| NativeCrypto.VerifyPasswordByFormat | native/crypto/joinly_crypto.cpp:22-34 | the corrected verifier: -1 on a null argument |
| NativeCrypto.VerifyByFormatHashed | native/crypto/joinly_crypto.cpp:8-34 | every password verifies against its own hash under the corrected verifier |
| NativeCrypto.VerifyByFormatRejects | native/crypto/joinly_crypto.cpp:8-34 | the corrected verifier still rejects a wrong password |
| NativeCrypto.HashPassword | native/crypto/joinly_crypto.cpp:8-20 | for a NUL-free password: 0 iff the arguments are non-null, the size is positive and the hash leaves room for its NUL, and then the hash fills the front of the buffer; -1 leaves the buffer untouched |

## Left out

- Threads, locks and the background loops (`start`, `stop`, `_matching_loop`, `_presence_loop`) are left out. One sequential pass of each loop body is modelled instead.
  - The event bus's non-reentrant lock is left out: a listener that emits while `emit` holds the lock would deadlock the source.
- The HTTP and WebSocket API, app bootstrap, heartbeat and scheduler services, and the launcher are outside the core.
- The SQLite and LevelDB stores are left out. The backend is an abstract key-value map.
  - `exists` and `clear` of `StorageBackend` are never called by `StorageManager` and are not modelled.
- `backend/native/bindings.py` is not part of this model. Only the C++ side is modelled.
- The bot profile library (`bot_profiles.py`) is left out. A profile is a parameter.
- `BehaviorController.add_behavior` is left out: the behaviour registry is fixed to its four entries.
- `TeamBalancer._balance_random` is left out. It is unreachable, because `balance_method` is always `'skill_based'`. It would also need randomness.
- Floating-point results are left out:
  - `calculate_team_balance`;
  - `get_average_wait_time`;
  - the average skill computed but never used in `_find_matches`;
  - the cache's `get_stats` hit rate.

  `avg_players_per_lobby` is kept as an exact ratio.
- The dict renderings are left out: `Player.to_dict`, `Bot.to_dict`, `Party.to_dict`, `MatchTicket.to_dict`, `MatchQueue.to_dict` and `Matcher.get_all_queues`.
  - The queue length they report is `Queues.MatchQueue.GetQueueLength`.
  - `LobbyContext.to_dict` is kept only as its counts and ids.
- `Lobbies.LobbyContext.ToDict` lists ids in an order it chooses, not the dicts' insertion order.
  - The same holds for `Engine.LobbyEngine.GetAllLobbies`, `Engine.LobbyEngine.GetAllPlayers`, `Engine.LobbyEngine.DeleteLobby` and `BotManagement.BotManager.GetAllBots`.
  - Presence.PresenceService.CheckPlayerPresence and `Presence.PresenceService.MarkStale` handle the stale players in an order they choose, where the source walks `engine.players` in insertion order. So the order of the `player_left` and `player_disconnected` records on the bus is not modelled. Which records are emitted, and for whom, is stated.
  - Insertion order is modelled where it decides behaviour: party members, queue tickets, the LRU order, event history and listener lists.
- `Cache.Entry.Access`: `CacheEntry` is a value that is replaced in the map, not an object mutated in place. No entry escapes the cache, so nothing can observe the difference.
- Matchmaking.Matcher.ProcessQueues scans every queue's tickets at the pass's one `now`. In the source, each queue's `get_active_tickets` reads `time.time()` afresh, after the earlier queues' matches were made. A ticket that only lapses during the pass is therefore not modelled.
- Matchmaking.Matcher.ProcessQueues does not state the exact set of lobby ids the whole pass adds. It states that lobbies are only added. The exact ids are stated per queue by `Matchmaking.Matcher.ProcessQueue`.
- Balancer.SortDesc states descending order and permutation, not the stability of Python's `sorted`.
- Balancer.SortAsc states ascending order and permutation, not the stability of Python's `sorted`.
- Storage.StorageManager.LoadLobby states only the case where nothing is stored. The decoding of a stored value is `Storage.Load`, and `Storage.StorageManager.SaveLobby` states the round trip.
- Storage.StorageManager.LoadPlayer states only the case where nothing is stored. The decoding of a stored value is `Storage.Load`, and `Storage.StorageManager.SavePlayer` states the round trip.
- Storage.Encode and Storage.Decode stand for `json.dumps` / `json.loads` as an opaque, exact encoding. The JSON text itself is not modelled.
- Python exceptions: only these are modelled:
  - the balancer's `ZeroDivisionError` and empty `min` (`Balancer.BalanceErrors`);
  - `range` with step 0 (`Matchmaking.MatchSpecEdges`);
  - `list.remove` of a listener that is not subscribed (`Events.EventBus.Off` reports it as `raised`);
  - `popitem` on an empty cache when `max_size <= 0` (`Cache.LRUCache.Set`);
  - raising rules (`Rules.ThrowingRuleRejects`);
  - malformed JSON (`Storage.Load`).

  All other exceptions are left out, for example attribute errors on unexpected config types.
- Default arguments are not modelled: every caller passes the value. This covers `get_history(limit=100)`, `increment_metric(amount=1)`, `LRUCache(max_size=1000)` and `profile_name='default'` of `create_bot`, `create_bots`, `add_bot_to_lobby` and `fill_lobby_with_bots`.
- Integer widths: the source's integers are Python's unbounded ones, and the C++ `int` sizes are compared as in the source. The salt is any integer.

## Findings

| source | as written | input that shows it | evidently intended | confidence | as-written member | corrected member |
|---|---|---|---|---|---|---|
| native/crypto/joinly_crypto.cpp:22-34 | `verify_password` compares the password with the text after the last `_` of the hash | the password `a_b` hashed to `HASH_<salt>_a_b`: the last field is `b`, so the password fails against its own hash | the password is everything after the `_` that ends the salt, so every password verifies against its own hash | high (not executed) | NativeCrypto.VerifyRejectsUnderscore | NativeCrypto.VerifyByFormatHashed |
