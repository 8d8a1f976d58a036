/**
 * The matcher (backend/matchmaking/matcher.py): named queues, and one pass of the matching loop,
 * which cuts each queue's active tickets, sorted by skill, into consecutive windows of
 * `players_per_match`, keeps the windows whose skill spread is small enough, and turns each kept
 * window into a lobby. The clock is a parameter; a match's lobby id is read from it.
 */
module Matchmaking {
  import opened Wrappers
  import Events
  import Decimal
  import opened Players
  import opened Tickets
  import opened Queues
  import opened Lobbies
  import Engine
  import Rules
  import Balancer
  import Seqs
  import Metrics

  /** `range(0, n, 0)` raises: a queue with `players_per_match == 0`. */
  datatype RangeError = ZeroStep

  const MatchCreated := "match_created"

  /** A ticket's skill, the sort key of the matcher and the balancer. */
  function Skill(t: MatchTicket): int {
    t.skillRating
  }

  /** `max(key(t) for t in g)` */
  function MaxKey<T>(g: seq<T>, key: T -> int): (m: int)
    requires g != []
    ensures forall i :: 0 <= i < |g| ==> key(g[i]) <= m
    ensures exists i :: 0 <= i < |g| && key(g[i]) == m
  {
    if |g| == 1 then key(g[0])
    else
      var m := MaxKey(g[..|g| - 1], key);
      assert forall i :: 0 <= i < |g| - 1 ==> g[..|g| - 1][i] == g[i];
      if key(g[|g| - 1]) > m then key(g[|g| - 1]) else m
  }

  /** `min(key(t) for t in g)` */
  function MinKey<T>(g: seq<T>, key: T -> int): (m: int)
    requires g != []
    ensures forall i :: 0 <= i < |g| ==> m <= key(g[i])
    ensures exists i :: 0 <= i < |g| && key(g[i]) == m
  {
    if |g| == 1 then key(g[0])
    else
      var m := MinKey(g[..|g| - 1], key);
      assert forall i :: 0 <= i < |g| - 1 ==> g[..|g| - 1][i] == g[i];
      if key(g[|g| - 1]) < m then key(g[|g| - 1]) else m
  }

  /** The skill spread of a group: largest minus smallest key. */
  function Spread<T>(g: seq<T>, key: T -> int): int
    requires g != []
  {
    MaxKey(g, key) - MinKey(g, key)
  }

  /**
   * The windows `s[i:i+n]` for `i` in `range(0, len(s) - n + 1, n)` whose spread is at most
   * `maxDiff`, in order; a trailing partial window is never looked at.
   */
  function Windows<T>(s: seq<T>, n: nat, maxDiff: int, key: T -> int): seq<seq<T>>
    requires n > 0
    decreases |s|
  {
    if |s| < n then []
    else (if Spread(s[..n], key) <= maxDiff then [s[..n]] else []) + Windows(s[n..], n, maxDiff, key)
  }

  /** What `_find_matches` returns, or raises, for the active tickets `active`. */
  function MatchSpec<T>(active: seq<T>, n: int, maxDiff: int, key: T -> int): Result<seq<seq<T>>, RangeError> {
    if |active| < n then Ok([])
    else if n == 0 then Err(ZeroStep)
    else if n < 0 then Ok([])
    else Ok(Windows(Balancer.SortAsc(active, key), n, maxDiff, key))
  }

  /**
   * Every group `_find_matches` keeps has exactly `n` tickets and a spread within `maxDiff`,
   * and there are at most `len(s) // n` of them (stated without the division).
   */
  lemma {:induction false} WindowsShape<T>(s: seq<T>, n: nat, maxDiff: int, key: T -> int)
    requires n > 0
    ensures var w := Windows(s, n, maxDiff, key);
      && |w| * n <= |s|
      && (forall j :: 0 <= j < |w| ==> |w[j]| == n && Spread(w[j], key) <= maxDiff)
    decreases |s|
  {
    if |s| >= n {
      var rest := Windows(s[n..], n, maxDiff, key);
      WindowsShape(s[n..], n, maxDiff, key);
      var head: seq<seq<T>> := if Spread(s[..n], key) <= maxDiff then [s[..n]] else [];
      var w := head + rest;
      CountStep(|head|, |rest|, n);
      forall j | 0 <= j < |w| ensures |w[j]| == n && Spread(w[j], key) <= maxDiff {
        if j >= |head| {
          assert w[j] == rest[j - |head|];
        }
      }
    }
  }

  lemma CountStep(a: nat, b: nat, n: nat)
    requires a <= 1
    ensures (a + b) * n <= b * n + n
  {
    if a == 1 {
      assert (1 + b) * n == b * n + n;
    }
  }

  /** No ticket is used more often than it occurs: the kept groups are disjoint windows of `s`. */
  lemma {:induction false} WindowsDisjoint<T>(s: seq<T>, n: nat, maxDiff: int, key: T -> int)
    requires n > 0
    ensures multiset(Balancer.Flatten(Windows(s, n, maxDiff, key))) <= multiset(s)
    decreases |s|
  {
    if |s| >= n {
      var rest := Windows(s[n..], n, maxDiff, key);
      WindowsDisjoint(s[n..], n, maxDiff, key);
      var head: seq<seq<T>> := if Spread(s[..n], key) <= maxDiff then [s[..n]] else [];
      FlattenConcat(head, rest);
      assert s == s[..n] + s[n..];
      assert multiset(s) == multiset(s[..n]) + multiset(s[n..]);
      if head != [] {
        assert head[..0] == [];
        assert Balancer.Flatten(head) == s[..n];
      }
    }
  }

  lemma {:induction false} FlattenConcat<T>(a: seq<seq<T>>, b: seq<seq<T>>)
    ensures Balancer.Flatten(a + b) == Balancer.Flatten(a) + Balancer.Flatten(b)
    decreases |b|
  {
    if b != [] {
      var n := |b| - 1;
      assert (a + b)[..|a + b| - 1] == a + b[..n];
      FlattenConcat(a, b[..n]);
    } else {
      assert a + b == a;
    }
  }

  /** In a window of an ascending sort, the spread is the last key minus the first. */
  lemma SortedSpread<T>(g: seq<T>, key: T -> int)
    requires g != [] && Balancer.SortedAsc(g, key)
    ensures Spread(g, key) == key(g[|g| - 1]) - key(g[0])
  {
  }

  /** Sorting what is already in ascending order changes nothing. */
  lemma {:induction false} SortAscSorted<T>(s: seq<T>, key: T -> int)
    requires Balancer.SortedAsc(s, key)
    ensures Balancer.SortAsc(s, key) == s
    decreases |s|
  {
    if s != [] {
      Balancer.TailSortedAsc(s, key);
      SortAscSorted(s[1..], key);
      assert s == [s[0]] + s[1..];
    }
  }

  /** Active tickets already in ascending order are windowed as they stand. */
  lemma MatchOfSorted<T>(s: seq<T>, n: nat, maxDiff: int, key: T -> int)
    requires Balancer.SortedAsc(s, key) && 0 < n <= |s|
    ensures MatchSpec(s, n, maxDiff, key) == Ok(Windows(s, n, maxDiff, key))
  {
    SortAscSorted(s, key);
  }

  /** Fewer active tickets than a match needs: no groups. A zero match size always raises. */
  lemma MatchSpecEdges<T>(s: seq<T>, n: int, maxDiff: int, key: T -> int)
    ensures |s| < n ==> MatchSpec(s, n, maxDiff, key) == Ok([])
    ensures MatchSpec(s, n, maxDiff, key).Err? <==> n == 0
  {
  }

  /** The spread of a pair. */
  lemma SpreadOfPair<T>(x: T, y: T, key: T -> int)
    ensures Spread([x, y], key) == if key(x) <= key(y) then key(y) - key(x) else key(x) - key(y)
  {
    assert [x, y][..1] == [x];
  }

  /** A two-element sequence is one window of two, kept or not. */
  lemma WindowsTwo<T>(s: seq<T>, maxDiff: int, key: T -> int)
    requires |s| == 2
    ensures Windows(s, 2, maxDiff, key) == if Spread(s, key) <= maxDiff then [s] else []
  {
    assert s[..2] == s && s[2..] == [];
  }

  lemma SortedPair<T>(x: T, y: T, key: T -> int)
    requires key(x) <= key(y)
    ensures Balancer.SortedAsc([x, y], key)
  {
  }

  lemma SortedFour<T>(a: T, b: T, c: T, d: T, key: T -> int)
    requires key(a) <= key(b) <= key(c) <= key(d)
    ensures Balancer.SortedAsc([a, b, c, d], key)
  {
  }

  /** Four tickets are windowed as two pairs. */
  lemma WindowsFour<T>(a: T, b: T, c: T, d: T, maxDiff: int, key: T -> int)
    ensures Windows([a, b, c, d], 2, maxDiff, key) ==
      (if Spread([a, b], key) <= maxDiff then [[a, b]] else []) +
      (if Spread([c, d], key) <= maxDiff then [[c, d]] else [])
  {
    var s := [a, b, c, d];
    assert s[..2] == [a, b] && s[2..] == [c, d];
    WindowsTwo([c, d], maxDiff, key);
  }

  lemma ClosePairs<T>(a: T, b: T, c: T, d: T, maxDiff: int, key: T -> int)
    requires key(a) <= key(b) && key(c) <= key(d)
    requires key(b) - key(a) <= maxDiff && key(d) - key(c) <= maxDiff
    ensures Windows([a, b, c, d], 2, maxDiff, key) == [[a, b], [c, d]]
  {
    WindowsFour(a, b, c, d, maxDiff, key);
    SpreadOfPair(a, b, key);
    SpreadOfPair(c, d, key);
    assert [[a, b]] + [[c, d]] == [[a, b], [c, d]];
  }

  /** Four sorted tickets whose two pairs are both close enough make two matches. */
  lemma TwoCloseMatches<T>(a: T, b: T, c: T, d: T, maxDiff: int, key: T -> int)
    requires key(a) <= key(b) <= key(c) <= key(d)
    requires key(b) - key(a) <= maxDiff && key(d) - key(c) <= maxDiff
    ensures MatchSpec([a, b, c, d], 2, maxDiff, key) == Ok([[a, b], [c, d]])
  {
    SortedFour(a, b, c, d, key);
    MatchOfSorted([a, b, c, d], 2, maxDiff, key);
    ClosePairs(a, b, c, d, maxDiff, key);
  }

  /** Skills 900, 950, 1800, 1850 in matches of two with a spread of 100: two matches. */
  lemma TwoMatchesExample()
    ensures MatchSpec([900, 950, 1800, 1850], 2, 100, Balancer.Id) == Ok([[900, 950], [1800, 1850]])
  {
    TwoCloseMatches(900, 950, 1800, 1850, 100, Balancer.Id);
  }

  /** Skills 900 and 1800 in a match of two with a spread of 100: no match. */
  lemma NoMatchExample()
    ensures MatchSpec([900, 1800], 2, 100, Balancer.Id) == Ok([])
  {
    SortedPair(900, 1800, Balancer.Id);
    MatchOfSorted([900, 1800], 2, 100, Balancer.Id);
    WindowsTwo([900, 1800], 100, Balancer.Id);
    SpreadOfPair(900, 1800, Balancer.Id);
  }

  /**
   * The loop of `_find_matches` over `range(0, len(s) - n + 1, n)`, walking the suffix that
   * starts at the loop index: each slice is a full window (the source's length test on it always
   * holds) and is kept when its spread is small enough.
   */
  method CollectWindows<T>(s: seq<T>, n: nat, maxDiff: int, key: T -> int) returns (matches: seq<seq<T>>)
    requires n > 0
    ensures matches == Windows(s, n, maxDiff, key)
  {
    matches := [];
    var rest := s;
    while |rest| >= n
      invariant matches + Windows(rest, n, maxDiff, key) == Windows(s, n, maxDiff, key)
      decreases |rest|
    {
      var group := rest[..n];
      var skillDiff := MaxKey(group, key) - MinKey(group, key);
      ghost var before := matches;
      if skillDiff <= maxDiff {
        matches := matches + [group];
      }
      CollectStep(before, matches, rest, n, maxDiff, key);
      rest := rest[n..];
    }
  }

  lemma CollectStep<T>(before: seq<seq<T>>, after: seq<seq<T>>, s: seq<T>, n: nat, maxDiff: int, key: T -> int)
    requires 0 < n <= |s|
    requires after == before + if Spread(s[..n], key) <= maxDiff then [s[..n]] else []
    ensures after + Windows(s[n..], n, maxDiff, key) == before + Windows(s, n, maxDiff, key)
  {
    var w := if Spread(s[..n], key) <= maxDiff then [s[..n]] else [];
    assert Windows(s, n, maxDiff, key) == w + Windows(s[n..], n, maxDiff, key);
    assert (before + w) + Windows(s[n..], n, maxDiff, key) == before + (w + Windows(s[n..], n, maxDiff, key));
  }

  /** `f"match_{ms}"`: the lobby id of a match made at `now`. */
  function MatchLobbyId(now: int): (id: string)
    ensures |id| > 6 && id[..6] == "match_"
  {
    "match_" + Decimal.IntToString(now)
  }

  /** Matches made in different milliseconds get different lobby ids (and only those). */
  lemma MatchLobbyIdInjective(a: int, b: int)
    requires MatchLobbyId(a) == MatchLobbyId(b)
    ensures a == b
  {
    assert MatchLobbyId(a)[6..] == Decimal.IntToString(a);
    assert MatchLobbyId(b)[6..] == Decimal.IntToString(b);
    Decimal.IntToStringInjective(a, b);
  }

  /** The lobby config of a match: room for exactly the match, no bots, everyone ready. */
  function MatchConfig(n: int): LobbyConfig {
    LobbyConfig(Some(n), Some(0), Some(true))
  }

  /** `{'lobby_id', 'queue_id', 'player_count'}` */
  function MatchPayload(lobbyId: string, queueId: string, count: int): Events.Payload {
    map["lobby_id" := Events.Str(lobbyId), "queue_id" := Events.Str(queueId), "player_count" := Events.Int(count)]
  }

  /** The `player_joined` records for `ids`, in order. */
  function JoinRecords(lobbyId: string, ids: seq<string>, now: int): (rs: seq<Events.EventRecord>)
    ensures |rs| == |ids|
    ensures forall i :: 0 <= i < |ids| ==> rs[i] == Events.EventRecord(Engine.PlayerJoined, Engine.PlayerPayload(lobbyId, ids[i]), now)
  {
    seq(|ids|, i requires 0 <= i < |ids| => Events.EventRecord(Engine.PlayerJoined, Engine.PlayerPayload(lobbyId, ids[i]), now))
  }

  lemma JoinRecordsStep(pre: seq<Events.EventRecord>, lobbyId: string, ids: seq<string>, x: string, now: int)
    ensures pre + JoinRecords(lobbyId, ids + [x], now)
         == pre + JoinRecords(lobbyId, ids, now) + [Events.EventRecord(Engine.PlayerJoined, Engine.PlayerPayload(lobbyId, x), now)]
  {
    var a := JoinRecords(lobbyId, ids + [x], now);
    var b := JoinRecords(lobbyId, ids, now) + [Events.EventRecord(Engine.PlayerJoined, Engine.PlayerPayload(lobbyId, x), now)];
    assert |a| == |b|;
    forall j | 0 <= j < |a| ensures a[j] == b[j] {
      assert (ids + [x])[j] == if j < |ids| then ids[j] else x;
    }
    assert a == b;
    assert pre + b == pre + JoinRecords(lobbyId, ids, now) + [Events.EventRecord(Engine.PlayerJoined, Engine.PlayerPayload(lobbyId, x), now)];
  }

  /** The entries of `xs` whose flag in `mask` is set, in order. */
  function Picked<T>(xs: seq<T>, mask: seq<bool>): (r: seq<T>)
    requires |mask| == |xs|
    ensures |r| <= |xs| && forall x :: x in r ==> x in xs
  {
    if xs == [] then []
    else Picked(xs[..|xs| - 1], mask[..|xs| - 1]) + if mask[|xs| - 1] then [xs[|xs| - 1]] else []
  }

  lemma PickedStep<T>(xs: seq<T>, mask: seq<bool>, x: T, b: bool)
    requires |mask| == |xs|
    ensures Picked(xs + [x], mask + [b]) == Picked(xs, mask) + if b then [x] else []
  {
    assert (xs + [x])[..|xs|] == xs && (mask + [b])[..|xs|] == mask;
  }

  lemma PickedPrefixStep(xs: seq<string>, mask: seq<bool>, i: nat, b: bool)
    requires |mask| == i < |xs|
    ensures Picked(xs[..i + 1], mask + [b]) == Picked(xs[..i], mask) + if b then [xs[i]] else []
    ensures Seqs.Elems(Picked(xs[..i + 1], mask + [b])) == Seqs.Elems(Picked(xs[..i], mask)) + if b then {xs[i]} else {}
  {
    assert xs[..i + 1] == xs[..i] + [xs[i]];
    PickedStep(xs[..i], mask, xs[i], b);
  }

  /** A ticket to seat, and the team index `_create_match` gives its player (`None` without teams). */
  datatype Seat<T> = Seat(ticket: T, team: Option<int>)

  /** Team `i`'s tickets, each with team index `i`. */
  function TeamSeats<T>(team: seq<T>, i: int): (ss: seq<Seat<T>>)
    ensures |ss| == |team| && forall j :: 0 <= j < |team| ==> ss[j] == Seat(team[j], Some(i))
  {
    seq(|team|, j requires 0 <= j < |team| => Seat(team[j], Some(i)))
  }

  /** `for team_id, team_tickets in enumerate(teams): for ticket in team_tickets`, as one list. */
  function Seats<T>(teams: seq<seq<T>>): seq<Seat<T>> {
    if teams == [] then [] else Seats(teams[..|teams| - 1]) + TeamSeats(teams[|teams| - 1], |teams| - 1)
  }

  /** `for ticket in tickets`, without teams. */
  function PlainSeats<T>(g: seq<T>): (ss: seq<Seat<T>>)
    ensures |ss| == |g| && forall i :: 0 <= i < |g| ==> ss[i] == Seat(g[i], None)
  {
    seq(|g|, i requires 0 <= i < |g| => Seat(g[i], None))
  }

  /** The tickets of some seats, in order. */
  function Seated<T>(ss: seq<Seat<T>>): (ts: seq<T>)
    ensures |ts| == |ss| && forall i :: 0 <= i < |ss| ==> ts[i] == ss[i].ticket
  {
    seq(|ss|, i requires 0 <= i < |ss| => ss[i].ticket)
  }

  /**
   * Seating the teams seats every ticket of every team, in order, and gives each the index of
   * a team that holds it.
   */
  lemma {:induction false} SeatsOfTeams<T>(teams: seq<seq<T>>)
    ensures Seated(Seats(teams)) == Balancer.Flatten(teams)
    ensures forall i :: 0 <= i < |Seats(teams)| ==>
      var s := Seats(teams)[i]; s.team.Some? && 0 <= s.team.value < |teams| && s.ticket in teams[s.team.value]
    decreases |teams|
  {
    if teams != [] {
      var k := |teams| - 1;
      var pre := teams[..k];
      SeatsOfTeams(pre);
      var a := Seats(pre);
      var b := TeamSeats(teams[k], k);
      assert Seats(teams) == a + b;
      assert Seated(a + b) == Seated(a) + Seated(b);
      assert Seated(b) == teams[k];
      forall i | 0 <= i < |a + b|
        ensures var s := (a + b)[i]; s.team.Some? && 0 <= s.team.value < |teams| && s.ticket in teams[s.team.value]
      {
        if i < |a| {
          assert (a + b)[i] == a[i];
          assert  pre[a[i].team.value] == teams[a[i].team.value];
        } else {
          assert (a + b)[i] == b[i - |a|];
        }
      }
    }
  }

  /** Without teams, the tickets are seated as they come. */
  lemma PlainSeatsOfGroup<T>(g: seq<T>)
    ensures Seated(PlainSeats(g)) == g
  {
  }

  /**
   * What `_create_match` seats: without teams the group as it is; in team mode the balanced
   * teams, or `None` when balancing raises.
   */
  function Seating<T>(group: seq<T>, teamMode: bool, teamSize: int, key: T -> int): Option<seq<Seat<T>>> {
    if !teamMode then Some(PlainSeats(group))
    else
      var r := Balancer.BalanceSpec(group, teamSize, key);
      if r.Ok? then Some(Seats(r.value)) else None
  }

  /** The ticket ids a match of `group` takes out of its queue: none when balancing raises. */
  function Taken(group: seq<MatchTicket>, teamMode: bool, teamSize: int): set<string> {
    var seating := Seating(group, teamMode, teamSize, Skill);
    if seating.None? then {} else Seqs.Elems(TicketIds(seating.value))
  }

  /** The ticket ids the matches of `groups`, made in order, take out of their queue. */
  function TakenAll(groups: seq<seq<MatchTicket>>, teamMode: bool, teamSize: int): set<string> {
    if groups == [] then {}
    else TakenAll(groups[..|groups| - 1], teamMode, teamSize) + Taken(groups[|groups| - 1], teamMode, teamSize)
  }

  lemma TakenAllStep(groups: seq<seq<MatchTicket>>, teamMode: bool, teamSize: int, i: nat)
    requires i < |groups|
    ensures TakenAll(groups[..i + 1], teamMode, teamSize) == TakenAll(groups[..i], teamMode, teamSize) + Taken(groups[i], teamMode, teamSize)
  {
    assert groups[..i + 1][..i] == groups[..i];
  }

  /**
   * A match seats exactly its group: as it stands without teams, and up to order in team mode
   * whenever the group fills at least one team. Team mode raises for a team size of zero and
   * for a group smaller than one team.
   */
  lemma SeatingSeatsGroup<T>(group: seq<T>, teamMode: bool, teamSize: int, key: T -> int)
    ensures !teamMode ==>
      Seating(group, teamMode, teamSize, key) == Some(PlainSeats(group)) && Seated(PlainSeats(group)) == group
    ensures teamMode && teamSize > 0 && |group| >= teamSize ==>
      var r := Seating(group, teamMode, teamSize, key);
      r.Some? && multiset(Seated(r.value)) == multiset(group)
    ensures teamMode && (teamSize == 0 || (0 < teamSize && 0 < |group| < teamSize)) ==>
      Seating(group, teamMode, teamSize, key) == None
  {
    PlainSeatsOfGroup(group);
    if teamMode && teamSize > 0 && |group| >= teamSize {
      Balancer.BalanceIsPartition(group, teamSize, key);
      SeatsOfTeams(Balancer.BalanceSpec(group, teamSize, key).value);
    }
    if teamMode && 0 < teamSize && 0 < |group| < teamSize {
      assert Balancer.NumTeams(|group|, teamSize) == 0;
    }
  }

  /** The ticket ids of some seats, in order. */
  function TicketIds(ss: seq<Seat<MatchTicket>>): (ids: seq<string>)
    ensures |ids| == |ss| && forall i :: 0 <= i < |ss| ==> ids[i] == ss[i].ticket.ticketId
  {
    seq(|ss|, i requires 0 <= i < |ss| => ss[i].ticket.ticketId)
  }

  /** The player ids of some seats, in order. */
  function PlayerIds(ss: seq<Seat<MatchTicket>>): (ids: seq<string>)
    ensures |ids| == |ss| && forall i :: 0 <= i < |ss| ==> ids[i] == ss[i].ticket.playerId
  {
    seq(|ss|, i requires 0 <= i < |ss| => ss[i].ticket.playerId)
  }

  /** The join rules' view of a ticket's new player: its id, and the skill `to_player` gives it. */
  function TicketCandidate(t: MatchTicket): Rules.Candidate {
    Rules.Candidate(t.playerId, if SkillKey in t.metadata then t.metadata[SkillKey] else t.skillRating)
  }

  /**
   * Where a run of `add_player_to_lobby` calls leaves a lobby and the engine: which joins the
   * rules admitted, which of those also seated (and so stamped) their player, the lobby's
   * players and the engine's players, by id.
   */
  datatype Admission<P> = Admission(mask: seq<bool>, placed: seq<bool>, seated: map<string, P>, indexed: map<string, P>)

  /** What the join rules see of a lobby that seats `a.seated`. */
  function ViewOf<P>(a: Admission<P>, maxPlayers: int, state: LobbyState): LobbyView {
    LobbyView(|a.seated|, maxPlayers, a.seated.Keys, state)
  }

  /**
   * One `add_player_to_lobby` of the player `p` made for a seat, in a lobby of `maxPlayers`
   * seats: the rules judge the current view; an admitted player is indexed by the engine, and
   * also seated when the lobby has room (`add_player` is a no-op on a full lobby).
   */
  function Offer<P>(rules: seq<Rules.Rule>, maxPlayers: int, state: LobbyState, a: Admission<P>, s: Seat<MatchTicket>, p: P): Admission<P> {
    var ok := Rules.Admits(rules, ViewOf(a, maxPlayers, state), TicketCandidate(s.ticket));
    var room := ok && |a.seated| < maxPlayers;
    Admission(
      a.mask + [ok],
      a.placed + [room],
      if room then a.seated[s.ticket.playerId := p] else a.seated,
      if ok then a.indexed[s.ticket.playerId := p] else a.indexed)
  }

  /** `Offer` once the rules' verdict `ok` on the seat is known. */
  lemma OfferIs<P>(rules: seq<Rules.Rule>, maxPlayers: int, state: LobbyState, a: Admission<P>, s: Seat<MatchTicket>, p: P, ok: bool)
    requires ok == Rules.Admits(rules, ViewOf(a, maxPlayers, state), TicketCandidate(s.ticket))
    ensures Offer(rules, maxPlayers, state, a, s, p) == Admission(a.mask + [ok], a.placed + [ok && |a.seated| < maxPlayers],
      if ok && |a.seated| < maxPlayers then a.seated[s.ticket.playerId := p] else a.seated,
      if ok then a.indexed[s.ticket.playerId := p] else a.indexed)
  {
  }

  /** The keys of a map that was updated at `k` when `ok`, and left alone otherwise. */
  lemma KeysOfUpdate<V>(m: map<string, V>, m': map<string, V>, k: string, v: V, ok: bool)
    requires m' == if ok then m[k := v] else m
    ensures m'.Keys == m.Keys + if ok then {k} else {}
  {
  }

  /** The seats offered in order, from `a0`, `made[k]` being the player made for `seats[k]`. */
  function Admitting<P>(rules: seq<Rules.Rule>, maxPlayers: int, state: LobbyState, a0: Admission<P>,
                        seats: seq<Seat<MatchTicket>>, made: seq<P>): (a: Admission<P>)
    requires |made| == |seats|
    ensures |a.mask| == |a0.mask| + |seats| && |a.placed| == |a0.placed| + |seats|
  {
    if seats == [] then a0
    else
      var n := |seats| - 1;
      Offer(rules, maxPlayers, state, Admitting(rules, maxPlayers, state, a0, seats[..n], made[..n]), seats[n], made[n])
  }

  lemma AdmittingStep<P>(rules: seq<Rules.Rule>, maxPlayers: int, state: LobbyState, a0: Admission<P>,
                         seats: seq<Seat<MatchTicket>>, made: seq<P>, p: P, i: nat)
    requires |made| == i < |seats|
    ensures Admitting(rules, maxPlayers, state, a0, seats[..i + 1], made + [p])
      == Offer(rules, maxPlayers, state, Admitting(rules, maxPlayers, state, a0, seats[..i], made), seats[i], p)
  {
    assert seats[..i + 1][..i] == seats[..i];
    assert (made + [p])[..i] == made;
  }

  /** Each seat's player id mapped to the player made for the last seat of that id. */
  function SeatMap<P>(seats: seq<Seat<MatchTicket>>, made: seq<P>): (r: map<string, P>)
    requires |made| == |seats|
    ensures r.Keys == Seqs.Elems(PlayerIds(seats))
  {
    if seats == [] then map[]
    else
      var n := |seats| - 1;
      assert PlayerIds(seats) == PlayerIds(seats[..n]) + [seats[n].ticket.playerId];
      SeatMap(seats[..n], made[..n])[seats[n].ticket.playerId := made[n]]
  }

  /** Without repeated players, the `k`-th seat's player is filed under its id. */
  lemma {:induction false} SeatMapAt<P>(seats: seq<Seat<MatchTicket>>, made: seq<P>, k: nat)
    requires |made| == |seats| && Seqs.Distinct(PlayerIds(seats)) && k < |seats|
    ensures SeatMap(seats, made)[seats[k].ticket.playerId] == made[k]
    decreases |seats|
  {
    var n := |seats| - 1;
    if k < n {
      assert PlayerIds(seats[..n]) == PlayerIds(seats)[..n];
      assert seats[k].ticket.playerId != seats[n].ticket.playerId by {
        assert PlayerIds(seats)[k] != PlayerIds(seats)[n];
      }
      SeatMapAt(seats[..n], made[..n], k);
    }
  }

  lemma MergeUpdate<P>(m: map<string, P>, t: map<string, P>, k: string, v: P)
    ensures (m + t)[k := v] == m + t[k := v]
  {
  }

  /** The default rules admit a newcomer to a `Waiting` lobby with room. */
  lemma DefaultRulesAdmit(v: LobbyView, c: Rules.Candidate)
    requires v.playerCount < v.maxPlayers && c.playerId !in v.memberIds && v.state == Waiting
    ensures Rules.Admits(Rules.DefaultRules(), v, c)
  {
    var rs := Rules.DefaultRules();
    assert rs == [Rules.Rule("lobby_not_full", Rules.NotFull), Rules.Rule("player_not_in_lobby", Rules.NotInLobby), Rules.Rule("lobby_accepting", Rules.Accepting)];
  }

  /** Every seat admitted, and seated in the lobby and indexed by the engine under its player id. */
  ghost predicate SeatedEveryone<P>(a: Admission<P>, seats: seq<Seat<MatchTicket>>, made: seq<P>, indexed: map<string, P>)
    requires |made| == |seats|
  {
    && |a.mask| == |seats| && (forall k :: 0 <= k < |seats| ==> a.mask[k])
    && |a.placed| == |seats| && (forall k :: 0 <= k < |seats| ==> a.placed[k])
    && a.seated == SeatMap(seats, made) && a.indexed == indexed + SeatMap(seats, made)
  }

  /**
   * Under the default rules a new `Waiting` lobby of `n` seats, offered at most `n` seats of
   * distinct players, admits and seats every one of them, and the engine indexes them all.
   */
  lemma {:induction false} DefaultRulesSeatEveryone<P>(seats: seq<Seat<MatchTicket>>, made: seq<P>, n: int, indexed: map<string, P>)
    requires |made| == |seats| && Seqs.Distinct(PlayerIds(seats)) && |seats| <= n
    ensures SeatedEveryone(Admitting(Rules.DefaultRules(), n, Waiting, Admission([], [], map[], indexed), seats, made), seats, made, indexed)
    decreases |seats|
  {
    if seats != [] {
      var k := |seats| - 1;
      assert PlayerIds(seats[..k]) == PlayerIds(seats)[..k];
      Seqs.DistinctPrefix(PlayerIds(seats), k);
      DefaultRulesSeatEveryone(seats[..k], made[..k], n, indexed);
      SeatEveryoneStep(seats, made, n, indexed);
    }
  }

  /** Under the default rules a `Waiting` lobby with room admits and seats a seat's newcomer. */
  lemma DefaultRulesOffer<P>(a: Admission<P>, s: Seat<MatchTicket>, p: P, n: int)
    requires s.ticket.playerId !in a.seated.Keys && |a.seated| < n
    ensures Offer(Rules.DefaultRules(), n, Waiting, a, s, p)
         == Admission(a.mask + [true], a.placed + [true], a.seated[s.ticket.playerId := p], a.indexed[s.ticket.playerId := p])
  {
    DefaultRulesAdmit(ViewOf(a, n, Waiting), TicketCandidate(s.ticket));
    OfferIs(Rules.DefaultRules(), n, Waiting, a, s, p, true);
  }

  /** Among seats of distinct players, the `k`-th is not among those before it, which number `k`. */
  lemma NewcomerHasRoom(seats: seq<Seat<MatchTicket>>, k: nat, n: int)
    requires Seqs.Distinct(PlayerIds(seats)) && k < |seats| <= n
    ensures seats[k].ticket.playerId !in Seqs.Elems(PlayerIds(seats[..k])) && |Seqs.Elems(PlayerIds(seats[..k]))| < n
  {
    var ids := PlayerIds(seats);
    assert PlayerIds(seats[..k]) == ids[..k];
    Seqs.DistinctNotBefore(ids, k);
    Seqs.DistinctPrefix(ids, k);
    Seqs.ListsLength(ids[..k], Seqs.Elems(ids[..k]));
  }

  /** A verdict list with no refusal, extended by an admission, still has none. */
  lemma AllAdmittedStep(mask: seq<bool>)
    requires forall j :: 0 <= j < |mask| ==> mask[j]
    ensures forall j :: 0 <= j < |mask + [true]| ==> (mask + [true])[j]
  {
  }

  /** The last seat of `seats` is admitted and seated once all the seats before it are. */
  lemma SeatEveryoneStep<P>(seats: seq<Seat<MatchTicket>>, made: seq<P>, n: int, indexed: map<string, P>)
    requires |made| == |seats| > 0 && Seqs.Distinct(PlayerIds(seats)) && |seats| <= n
    requires SeatedEveryone(Admitting(Rules.DefaultRules(), n, Waiting, Admission([], [], map[], indexed), seats[..|seats| - 1], made[..|seats| - 1]),
                            seats[..|seats| - 1], made[..|seats| - 1], indexed)
    ensures SeatedEveryone(Admitting(Rules.DefaultRules(), n, Waiting, Admission([], [], map[], indexed), seats, made), seats, made, indexed)
  {
    var k := |seats| - 1;
    var init, last, p := seats[..k], seats[k], made[k];
    var a := Admitting(Rules.DefaultRules(), n, Waiting, Admission([], [], map[], indexed), init, made[..k]);
    var pid := last.ticket.playerId;
    NewcomerHasRoom(seats, k, n);
    assert |a.seated| == |a.seated.Keys|;
    DefaultRulesOffer(a, last, p, n);
    MergeUpdate(indexed, SeatMap(init, made[..k]), pid, p);
    assert SeatMap(seats, made) == SeatMap(init, made[..k])[pid := p];
    var o := Admitting(Rules.DefaultRules(), n, Waiting, Admission([], [], map[], indexed), seats, made);
    assert o == Admission(a.mask + [true], a.placed + [true], a.seated[pid := p], a.indexed[pid := p]);
    AllAdmittedStep(a.mask);
    AllAdmittedStep(a.placed);
  }

  /** The `n` clock readings of a pass from its `a`-th match on. */
  function Stamps(clock: nat -> int, a: nat, n: nat): seq<int>
  {
    if n == 0 then [] else Stamps(clock, a, n - 1) + [clock(a + n - 1)]
  }

  lemma {:induction false} StampsAt(clock: nat -> int, a: nat, n: nat)
    ensures |Stamps(clock, a, n)| == n
    ensures forall j :: 0 <= j < n ==> Stamps(clock, a, n)[j] == clock(a + j)
  {
    if n > 0 {
      StampsAt(clock, a, n - 1);
    }
  }

  lemma {:induction false} StampsPrefix(clock: nat -> int, a: nat, n: nat, m: nat)
    requires m <= n
    ensures |Stamps(clock, a, n)| == n && Stamps(clock, a, n)[..m] == Stamps(clock, a, m)
    decreases n
  {
    StampsAt(clock, a, n);
    if m < n {
      StampsPrefix(clock, a, n - 1, m);
      assert Stamps(clock, a, n)[..m] == Stamps(clock, a, n - 1)[..m];
    }
  }

  lemma {:induction false} StampsConcat(clock: nat -> int, a: nat, b: nat)
    ensures Stamps(clock, 0, a) + Stamps(clock, a, b) == Stamps(clock, 0, a + b)
    decreases b
  {
    if b > 0 {
      StampsConcat(clock, a, b - 1);
    }
  }

  /** The lobby ids of matches made at the times `stamps`, in order. */
  function MatchIdSeq(stamps: seq<int>): seq<string>
  {
    if stamps == [] then [] else MatchIdSeq(stamps[..|stamps| - 1]) + [MatchLobbyId(stamps[|stamps| - 1])]
  }

  /** The `j`-th match made gets the lobby id of the `j`-th time. */
  lemma {:induction false} MatchIdSeqAt(stamps: seq<int>)
    ensures |MatchIdSeq(stamps)| == |stamps|
    ensures forall j :: 0 <= j < |stamps| ==> MatchIdSeq(stamps)[j] == MatchLobbyId(stamps[j])
  {
    if stamps != [] {
      var n := |stamps| - 1;
      var init := stamps[..n];
      MatchIdSeqAt(init);
      var ids, front := MatchIdSeq(stamps), MatchIdSeq(init);
      var last := MatchLobbyId(stamps[n]);
      assert ids == front + [last];
      forall j | 0 <= j < n + 1 ensures ids[j] == MatchLobbyId(stamps[j]) {
        if j < n {
          assert ids[j] == front[j] && stamps[j] == init[j];
        } else {
          assert ids[j] == last;
        }
      }
    }
  }

  lemma MatchIdSeqStep(stamps: seq<int>, i: nat)
    requires i < |stamps|
    ensures MatchIdSeq(stamps[..i + 1]) == MatchIdSeq(stamps[..i]) + [MatchLobbyId(stamps[i])]
  {
    assert stamps[..i + 1][..i] == stamps[..i];
  }

  lemma {:induction false} MatchIdSeqConcat(a: seq<int>, b: seq<int>)
    ensures MatchIdSeq(a + b) == MatchIdSeq(a) + MatchIdSeq(b)
    decreases |b|
  {
    if b == [] {
      assert a + b == a;
    } else {
      var b' := b[..|b| - 1];
      assert (a + b)[..|a + b| - 1] == a + b';
      MatchIdSeqConcat(a, b');
    }
  }

  /** The lobby ids of a pass split at any match: those before it, then those from it on. */
  lemma PassConcat(clock: nat -> int, made: nat, count: nat, made': nat)
    requires made' == made + count
    ensures MatchIdSeq(Stamps(clock, 0, made)) + MatchIdSeq(Stamps(clock, made, count)) == MatchIdSeq(Stamps(clock, 0, made'))
  {
    StampsConcat(clock, made, count);
    MatchIdSeqConcat(Stamps(clock, 0, made), Stamps(clock, made, count));
  }

  /** The matchmaker: named queues over one lobby engine. */
  class Matcher {
    var queues: map<string, MatchQueue>
    /** The insertion order of `queues`' keys, which `_process_queues` follows. */
    var order: seq<string>
    const engine: Engine.LobbyEngine

    ghost predicate Valid()
      reads this, engine, engine.bus, queues.Values
    {
      && engine.Valid()
      && Seqs.Lists(order, queues.Keys)
      && (forall k :: k in queues ==> queues[k].queueId == k && queues[k].Valid())
    }

    /** The queue filed under `queueId`, as a frame. */
    ghost function QueueRef(queueId: string): set<MatchQueue>
      reads this
    {
      if queueId in queues then {queues[queueId]} else {}
    }

    constructor (engine: Engine.LobbyEngine)
      requires engine.Valid()
      ensures Valid() && this.engine == engine && queues == map[] && order == []
    {
      this.engine := engine;
      queues := map[];
      order := [];
    }

    /** `create_queue`: files a new empty queue under the id, replacing any queue already there. */
    method CreateQueue(queueId: string, config: QueueConfig, now: int) returns (q: MatchQueue)
      requires Valid()
      modifies this`queues, this`order
      ensures Valid() && fresh(q)
      ensures queues == old(queues)[queueId := q]
      ensures order == if queueId in old(queues) then old(order) else old(order) + [queueId]
      ensures q.queueId == queueId && q.config == config && q.tickets == map[]
    {
      q := new MatchQueue(queueId, config, now);
      if queueId !in queues {
        Seqs.AppendLists(order, queues.Keys, queueId);
        order := order + [queueId];
      }
      queues := queues[queueId := q];
    }

    function GetQueue(queueId: string): (r: Option<MatchQueue>)
      reads this`queues
      ensures r.Some? <==> queueId in queues
      ensures r.Some? ==> r.value == queues[queueId]
    {
      if queueId in queues then Some(queues[queueId]) else None
    }

    /** `add_ticket`: false, with nothing changed, for an unknown queue. */
    method AddTicket(queueId: string, ticket: MatchTicket, now: int) returns (ok: bool)
      requires Valid()
      modifies QueueRef(queueId)`tickets, QueueRef(queueId)`order, ticket`queuedAt
      ensures Valid()
      ensures ok <==> queueId in queues
      ensures !ok ==> ticket.queuedAt == old(ticket.queuedAt)
      ensures ok ==> queues[queueId].tickets == old(queues[queueId].tickets)[ticket.ticketId := ticket]
                     && ticket.queuedAt == now
    {
      ok := false;
      var lookup := GetQueue(queueId);
      if lookup.Some? {
        lookup.value.AddTicket(ticket, now);
        ok := true;
      }
    }

    /** `remove_ticket`: a no-op for an unknown queue. */
    method RemoveTicket(queueId: string, ticketId: string)
      requires Valid()
      modifies QueueRef(queueId)`tickets, QueueRef(queueId)`order
      ensures Valid()
      ensures queueId in queues ==> queues[queueId].tickets == old(queues[queueId].tickets) - {ticketId}
    {
      var lookup := GetQueue(queueId);
      if lookup.Some? {
        lookup.value.RemoveTicket(ticketId);
      }
    }

    /**
     * `_find_matches`: fetches the active tickets (flipping the lapsed ones to `'timeout'`) and
     * windows them as `MatchSpec` says, raising for a match size of zero.
     */
    method FindMatches(queue: MatchQueue, now: int) returns (r: Result<seq<seq<MatchTicket>>, RangeError>, ghost active: seq<MatchTicket>)
      requires queue.Valid()
      modifies queue.tickets.Values`status
      ensures Gathered(LiveIds(queue.order, old(queue.View()), queue.WaitLimit(), now), queue.tickets, active)
      ensures forall k :: k in queue.tickets ==>
        queue.tickets[k].status == if Lapsed(old(queue.View())[k], queue.WaitLimit(), now) then TimedOut else old(queue.tickets[k].status)
      ensures r == MatchSpec(active, queue.playersPerMatch, queue.maxSkillDiff, Skill)
    {
      var tickets := queue.GetActiveTickets(now);
      active := tickets;
      var n := queue.playersPerMatch;
      if |tickets| < n {
        r := Ok([]);
      } else if n == 0 {
        r := Err(ZeroStep);
      } else if n < 0 {
        r := Ok([]);
      } else {
        var sorted := Balancer.SortAsc(tickets, Skill);
        var matches := CollectWindows(sorted, n, queue.maxSkillDiff, Skill);
        r := Ok(matches);
      }
    }

    /**
     * The join half of one seat of `_create_match`: the ticket's new player, with the seat's
     * team, asks to join the lobby, which stamps it when it seats it. The players `made` for
     * earlier seats are left as they are.
     */
    method Join(lobbyId: string, seat: Seat<MatchTicket>, now: int, ghost made: seq<Player>) returns (ok: bool, player: Players.Player)
      requires engine.Valid()
      modifies engine`players, engine.LobbyRef(lobbyId)`players, engine.bus, engine.bus.sinks
      ensures engine.Valid() && fresh(player)
      ensures engine.bus.listeners == old(engine.bus.listeners) && engine.bus.sinks == old(engine.bus.sinks)
      ensures player.playerId == seat.ticket.playerId && player.team == seat.team
      ensures lobbyId !in engine.lobbies ==> !ok
      ensures lobbyId in engine.lobbies ==>
        && ok == Rules.Admits(engine.ruleEngine.rules, old(engine.lobbies[lobbyId].View()), TicketCandidate(seat.ticket))
        && engine.lobbies[lobbyId].players ==
             if ok && |old(engine.lobbies[lobbyId].players)| < engine.lobbies[lobbyId].maxPlayers
             then old(engine.lobbies[lobbyId].players)[player.playerId := player]
             else old(engine.lobbies[lobbyId].players)
      ensures player.lobbyId ==
        if lobbyId in engine.lobbies && ok && |old(engine.lobbies[lobbyId].players)| < engine.lobbies[lobbyId].maxPlayers
        then Some(lobbyId) else None
      ensures forall k :: 0 <= k < |made| ==> made[k].lobbyId == old(made[k].lobbyId)
      ensures engine.players == if ok then old(engine.players)[player.playerId := player] else old(engine.players)
      ensures engine.bus.emitted == old(engine.bus.emitted) +
        if ok then [Events.EventRecord(Engine.PlayerJoined, Engine.PlayerPayload(lobbyId, player.playerId), now)] else []
    {
      player := seat.ticket.ToPlayer(now);
      if seat.team.Some? {
        player.team := seat.team;
      }
      ok := engine.AddPlayerToLobby(lobbyId, player, now);
    }

    /** `made[k]` is the player made for `seats[k]`: same id, and the seat's team. */
    static ghost predicate Sitting(seats: seq<Seat<MatchTicket>>, made: seq<Player>)
      reads made`team
    {
      |made| == |seats| && forall k :: 0 <= k < |seats| ==> made[k].playerId == seats[k].ticket.playerId && made[k].team == seats[k].team
    }

    /** `made[k]` carries the lobby's id when its join seated it (`placed[k]`), and no lobby otherwise. */
    static ghost predicate Stamped(lobbyId: string, made: seq<Player>, placed: seq<bool>)
      reads made`lobbyId
    {
      |made| == |placed| && forall k :: 0 <= k < |made| ==> made[k].lobbyId == if placed[k] then Some(lobbyId) else None
    }

    /** The lobby filed under `lobbyId` seats `a.seated` and the engine indexes `a.indexed`. */
    ghost predicate Stands(lobbyId: string, a: Admission<Player>)
      reads engine`lobbies, engine`players, engine.lobbies.Values`players
    {
      lobbyId in engine.lobbies ==> engine.lobbies[lobbyId].players == a.seated && engine.players == a.indexed
    }

    /** The join rules, the size and the state of the lobby filed under `lobbyId`, as `Offer` takes them. */
    ghost function OfferTo(lobbyId: string, a: Admission<Player>, seat: Seat<MatchTicket>, p: Player): Admission<Player>
      requires lobbyId in engine.lobbies
      reads this, engine, engine.ruleEngine, engine.lobbies[lobbyId]
    {
      Offer(engine.ruleEngine.rules, engine.lobbies[lobbyId].maxPlayers, engine.lobbies[lobbyId].state, a, seat, p)
    }

    /** `Join`, seen as one `Offer` of the seat; the players `made` before it keep their lobby ids. */
    method Enter(lobbyId: string, seat: Seat<MatchTicket>, now: int, ghost a: Admission<Player>, ghost made: seq<Player>) returns (ok: bool, ghost player: Player)
      requires engine.Valid()
      requires lobbyId in engine.lobbies ==> engine.lobbies[lobbyId].players == a.seated && engine.players == a.indexed
      modifies engine`players, engine.LobbyRef(lobbyId)`players, engine.bus, engine.bus.sinks
      ensures engine.Valid()
      ensures engine.bus.listeners == old(engine.bus.listeners) && engine.bus.sinks == old(engine.bus.sinks)
      ensures player.playerId == seat.ticket.playerId && player.team == seat.team
      ensures engine.lobbies == old(engine.lobbies) && engine.ruleEngine.rules == old(engine.ruleEngine.rules)
      ensures lobbyId in engine.lobbies ==> engine.lobbies[lobbyId].state == old(engine.lobbies[lobbyId].state)
      ensures lobbyId !in engine.lobbies ==> !ok && player.lobbyId == None
      ensures !ok ==> engine.players == old(engine.players)
      ensures lobbyId in engine.lobbies ==>
        var o := Offer(engine.ruleEngine.rules, engine.lobbies[lobbyId].maxPlayers, engine.lobbies[lobbyId].state, a, seat, player);
        && o.mask == a.mask + [ok] && engine.lobbies[lobbyId].players == o.seated && engine.players == o.indexed
        && player.lobbyId == if o.placed[|a.placed|] then Some(lobbyId) else None
      ensures forall k :: 0 <= k < |made| ==> made[k].lobbyId == old(made[k].lobbyId)
      ensures engine.players.Keys == old(engine.players.Keys) + if ok then {seat.ticket.playerId} else {}
      ensures engine.bus.emitted == old(engine.bus.emitted) +
        if ok then [Events.EventRecord(Engine.PlayerJoined, Engine.PlayerPayload(lobbyId, seat.ticket.playerId), now)] else []
    {
      var p;
      ok, p := Join(lobbyId, seat, now, made);
      player := p;
      KeysOfUpdate(old(engine.players), engine.players, seat.ticket.playerId, p, ok);
      if lobbyId in engine.lobbies {
        var lobby := engine.lobbies[lobbyId];
        assert old(lobby.View()) == ViewOf(a, lobby.maxPlayers, lobby.state);
        OfferIs(engine.ruleEngine.rules, lobby.maxPlayers, lobby.state, a, seat, p, ok);
      }
    }

    /**
     * The seating loops of `_create_match`: each seat in order asks to join (`mask` records
     * which joins the lobby accepted), and every seated ticket leaves the queue either way.
     */
    method SeatAll(queue: MatchQueue, lobbyId: string, seats: seq<Seat<MatchTicket>>, now: int)
      returns (ghost mask: seq<bool>, ghost made: seq<Player>)
      requires engine.Valid() && queue.Valid()
      modifies engine`players, engine.LobbyRef(lobbyId)`players, engine.bus, engine.bus.sinks, queue`tickets, queue`order
      ensures engine.Valid() && queue.Valid()
      ensures engine.bus.listeners == old(engine.bus.listeners) && engine.bus.sinks == old(engine.bus.sinks)
      ensures |mask| == |seats|
      ensures queue.tickets == old(queue.tickets) - Seqs.Elems(TicketIds(seats))
      ensures engine.players.Keys == old(engine.players.Keys) + Seqs.Elems(Picked(PlayerIds(seats), mask))
      ensures engine.bus.emitted == old(engine.bus.emitted) + JoinRecords(lobbyId, Picked(PlayerIds(seats), mask), now)
      ensures Sitting(seats, made)
      ensures lobbyId in engine.lobbies ==>
        var lobby := engine.lobbies[lobbyId];
        var a := Admitting(engine.ruleEngine.rules, lobby.maxPlayers, lobby.state,
                           Admission([], [], old(lobby.players), old(engine.players)), seats, made);
        mask == a.mask && lobby.players == a.seated && engine.players == a.indexed && Stamped(lobbyId, made, a.placed)
      ensures lobbyId !in engine.lobbies ==>
        (forall k :: 0 <= k < |mask| ==> !mask[k]) && engine.players == old(engine.players) && (forall k :: 0 <= k < |made| ==> made[k].lobbyId == None)
    {
      ghost var t0, k0, e0 := queue.tickets, engine.players.Keys, engine.bus.emitted;
      ghost var a0 := Admission([], [], if lobbyId in engine.lobbies then engine.lobbies[lobbyId].players else map[], engine.players);
      SeatingStart(queue, lobbyId, seats, now, t0, k0, e0, a0);
      mask, made := SeatEach(queue, lobbyId, seats, now, t0, k0, e0, a0);
      SeatingEnd(queue, lobbyId, seats, mask, made, now, t0, k0, e0, a0);
    }

    /** The loop of `SeatAll`, from the queue's tickets, the engine's index and history and the lobby `a0` it starts with. */
    method SeatEach(queue: MatchQueue, lobbyId: string, seats: seq<Seat<MatchTicket>>, now: int,
                    ghost t0: map<string, MatchTicket>, ghost k0: set<string>, ghost e0: seq<Events.EventRecord>, ghost a0: Admission<Player>)
      returns (ghost mask: seq<bool>, ghost made: seq<Player>)
      requires queue.Valid() && Removed(queue, seats, 0, t0)
      requires Joined(lobbyId, seats, 0, [], now, k0, e0) && Admitted(lobbyId, seats, 0, [], [], a0)
      modifies engine`players, engine.LobbyRef(lobbyId)`players, engine.bus, engine.bus.sinks, queue`tickets, queue`order
      ensures queue.Valid() && Removed(queue, seats, |seats|, t0)
      ensures Joined(lobbyId, seats, |seats|, mask, now, k0, e0) && Admitted(lobbyId, seats, |seats|, mask, made, a0)
      ensures Sitting(seats, made)
      ensures engine.bus.listeners == old(engine.bus.listeners) && engine.bus.sinks == old(engine.bus.sinks)
    {
      mask, made := [], [];
      var i := 0;
      while i < |seats|
        invariant i <= |seats| && queue.Valid() && Removed(queue, seats, i, t0)
        invariant Joined(lobbyId, seats, i, mask, now, k0, e0) && Admitted(lobbyId, seats, i, mask, made, a0)
        invariant Sitting(seats[..i], made)
        invariant engine.bus.listeners == old(engine.bus.listeners) && engine.bus.sinks == old(engine.bus.sinks)
      {
        mask, made := SeatOne(queue, lobbyId, seats, i, mask, made, now, t0, k0, e0, a0);
        i := i + 1;
      }
      assert seats[..i] == seats;
    }

    /** One pass of the seating loop: the `i`-th seat's join, then its ticket's removal. */
    method SeatOne(queue: MatchQueue, lobbyId: string, seats: seq<Seat<MatchTicket>>, i: nat, ghost mask: seq<bool>, ghost made: seq<Player>,
                   now: int, ghost t0: map<string, MatchTicket>, ghost k0: set<string>, ghost e0: seq<Events.EventRecord>,
                   ghost a0: Admission<Player>)
      returns (ghost mask': seq<bool>, ghost made': seq<Player>)
      requires i < |seats| && queue.Valid() && Removed(queue, seats, i, t0)
      requires Joined(lobbyId, seats, i, mask, now, k0, e0) && Admitted(lobbyId, seats, i, mask, made, a0)
      requires Sitting(seats[..i], made)
      modifies engine`players, engine.LobbyRef(lobbyId)`players, engine.bus, engine.bus.sinks, queue`tickets, queue`order
      ensures queue.Valid() && Removed(queue, seats, i + 1, t0)
      ensures Joined(lobbyId, seats, i + 1, mask', now, k0, e0) && Admitted(lobbyId, seats, i + 1, mask', made', a0)
      ensures Sitting(seats[..i + 1], made')
      ensures engine.bus.listeners == old(engine.bus.listeners) && engine.bus.sinks == old(engine.bus.sinks)
    {
      var ok, p := JoinOne(lobbyId, seats, i, mask, made, now, k0, e0, a0);
      mask', made' := mask + [ok], made + [p];
      RemoveOne(queue, lobbyId, seats, i, mask', made', now, t0, k0, e0, a0);
    }

    /** The join of the `i`-th seat, which grows the engine's and the lobby's side by that seat. */
    method JoinOne(lobbyId: string, seats: seq<Seat<MatchTicket>>, i: nat, ghost mask: seq<bool>, ghost made: seq<Player>,
                   now: int, ghost k0: set<string>, ghost e0: seq<Events.EventRecord>, ghost a0: Admission<Player>)
      returns (ok: bool, ghost p: Player)
      requires i < |seats|
      requires Joined(lobbyId, seats, i, mask, now, k0, e0) && Admitted(lobbyId, seats, i, mask, made, a0)
      requires Sitting(seats[..i], made)
      modifies engine`players, engine.LobbyRef(lobbyId)`players, engine.bus, engine.bus.sinks
      ensures Joined(lobbyId, seats, i + 1, mask + [ok], now, k0, e0) && Admitted(lobbyId, seats, i + 1, mask + [ok], made + [p], a0)
      ensures Sitting(seats[..i + 1], made + [p])
      ensures engine.bus.listeners == old(engine.bus.listeners) && engine.bus.sinks == old(engine.bus.sinks)
    {
      ghost var ks, em := engine.players.Keys, engine.bus.emitted;
      ghost var a := if lobbyId in engine.lobbies
        then Admitting(engine.ruleEngine.rules, engine.lobbies[lobbyId].maxPlayers, engine.lobbies[lobbyId].state, a0, seats[..i], made)
        else a0;
      ok, p := Enter(lobbyId, seats[i], now, a, made);
      JoinedStep(lobbyId, seats, i, mask, ok, now, k0, e0, ks, em);
      SittingStep(seats, i, made, p);
      AdmittedStep(lobbyId, seats, i, mask, made, p, ok, a0, a);
    }

    /** Before the first seat, nothing is removed, joined or admitted. */
    lemma SeatingStart(queue: MatchQueue, lobbyId: string, seats: seq<Seat<MatchTicket>>, now: int,
                       t0: map<string, MatchTicket>, k0: set<string>, e0: seq<Events.EventRecord>, a0: Admission<Player>)
      requires engine.Valid() && t0 == queue.tickets && k0 == engine.players.Keys && e0 == engine.bus.emitted
      requires a0 == Admission([], [], if lobbyId in engine.lobbies then engine.lobbies[lobbyId].players else map[], engine.players)
      ensures Removed(queue, seats, 0, t0) && Joined(lobbyId, seats, 0, [], now, k0, e0) && Admitted(lobbyId, seats, 0, [], [], a0)
    {
      assert seats[..0] == [] && TicketIds(seats)[..0] == [] && PlayerIds(seats)[..0] == [];
      assert Seqs.Elems([]) == {};
    }

    /** After the last seat, the first `|seats|` seats are all of them. */
    lemma SeatingEnd(queue: MatchQueue, lobbyId: string, seats: seq<Seat<MatchTicket>>, mask: seq<bool>, made: seq<Player>, now: int,
                     t0: map<string, MatchTicket>, k0: set<string>, e0: seq<Events.EventRecord>, a0: Admission<Player>)
      requires Removed(queue, seats, |seats|, t0) && Joined(lobbyId, seats, |seats|, mask, now, k0, e0)
      requires Admitted(lobbyId, seats, |seats|, mask, made, a0)
      ensures engine.Valid() && |mask| == |seats| && queue.tickets == t0 - Seqs.Elems(TicketIds(seats))
      ensures engine.players.Keys == k0 + Seqs.Elems(Picked(PlayerIds(seats), mask))
      ensures engine.bus.emitted == e0 + JoinRecords(lobbyId, Picked(PlayerIds(seats), mask), now)
      ensures lobbyId in engine.lobbies ==>
        var lobby := engine.lobbies[lobbyId];
        var a := Admitting(engine.ruleEngine.rules, lobby.maxPlayers, lobby.state, a0, seats, made);
        mask == a.mask && lobby.players == a.seated && engine.players == a.indexed && Stamped(lobbyId, made, a.placed)
      ensures lobbyId !in engine.lobbies ==>
        (forall k :: 0 <= k < |mask| ==> !mask[k]) && engine.players == a0.indexed && (forall k :: 0 <= k < |made| ==> made[k].lobbyId == None)
    {
      assert TicketIds(seats)[..|seats|] == TicketIds(seats) && PlayerIds(seats)[..|seats|] == PlayerIds(seats) && seats[..|seats|] == seats;
    }

    /** One more player made for the next seat, with its id and team. */
    static lemma SittingStep(seats: seq<Seat<MatchTicket>>, i: nat, made: seq<Player>, p: Player)
      requires i < |seats| && Sitting(seats[..i], made) && p.playerId == seats[i].ticket.playerId && p.team == seats[i].team
      ensures Sitting(seats[..i + 1], made + [p])
    {
    }

    /** The engine's side of `SeatAll` after the first `i` seats, from the index and history it started with. */
    ghost predicate Joined(lobbyId: string, seats: seq<Seat<MatchTicket>>, i: nat, mask: seq<bool>, now: int,
                           k0: set<string>, e0: seq<Events.EventRecord>)
      reads this, engine, engine.bus
    {
      && i <= |seats| && |mask| == i
      && engine.Valid()
      && engine.players.Keys == k0 + Seqs.Elems(Picked(PlayerIds(seats)[..i], mask))
      && engine.bus.emitted == e0 + JoinRecords(lobbyId, Picked(PlayerIds(seats)[..i], mask), now)
    }

    /** The queue's side of `SeatAll` after the first `i` seats, from the tickets it started with. */
    static ghost predicate Removed(queue: MatchQueue, seats: seq<Seat<MatchTicket>>, i: nat, t0: map<string, MatchTicket>)
      reads queue`tickets
    {
      i <= |seats| && queue.tickets == t0 - Seqs.Elems(TicketIds(seats)[..i])
    }

    /**
     * Which of the first `i` seats the rules admitted and where the lobby and the engine stand,
     * from `a0`, `made` holding the players made so far, each stamped where it was seated; a
     * missing lobby admits and stamps no one and leaves the engine's players as they were.
     */
    ghost predicate Admitted(lobbyId: string, seats: seq<Seat<MatchTicket>>, i: nat, mask: seq<bool>, made: seq<Player>, a0: Admission<Player>)
      reads engine`lobbies, engine`players, engine.ruleEngine`rules, engine.lobbies.Values`players, engine.lobbies.Values`state, made`lobbyId
    {
      && i <= |seats| && |made| == i && a0.mask == [] && a0.placed == []
      && (lobbyId in engine.lobbies ==>
            var a := Admitting(engine.ruleEngine.rules, engine.lobbies[lobbyId].maxPlayers, engine.lobbies[lobbyId].state, a0, seats[..i], made);
            mask == a.mask && Stands(lobbyId, a) && Stamped(lobbyId, made, a.placed))
      && (lobbyId !in engine.lobbies ==>
            (forall k :: 0 <= k < |mask| ==> !mask[k]) && engine.players == a0.indexed && (forall k :: 0 <= k < i ==> made[k].lobbyId == None))
    }

    /** `Joined` grows by the `i`-th seat's verdict `ok`, from the index `ks` and the history `em` before its join. */
    lemma JoinedStep(lobbyId: string, seats: seq<Seat<MatchTicket>>, i: nat, mask: seq<bool>, ok: bool, now: int,
                     k0: set<string>, e0: seq<Events.EventRecord>, ks: set<string>, em: seq<Events.EventRecord>)
      requires i < |seats| && |mask| == i && engine.Valid()
      requires ks == k0 + Seqs.Elems(Picked(PlayerIds(seats)[..i], mask))
      requires em == e0 + JoinRecords(lobbyId, Picked(PlayerIds(seats)[..i], mask), now)
      requires engine.players.Keys == ks + if ok then {seats[i].ticket.playerId} else {}
      requires engine.bus.emitted == em +
        if ok then [Events.EventRecord(Engine.PlayerJoined, Engine.PlayerPayload(lobbyId, seats[i].ticket.playerId), now)] else []
      ensures Joined(lobbyId, seats, i + 1, mask + [ok], now, k0, e0)
    {
      var pids := PlayerIds(seats);
      var before := Picked(pids[..i], mask);
      PickedPrefixStep(pids, mask, i, ok);
      assert pids[i] == seats[i].ticket.playerId;
      if ok {
        JoinRecordsStep(e0, lobbyId, before, pids[i], now);
        Seqs.AppendElems(before, pids[i], k0, ks, engine.players.Keys);
      } else {
        assert Picked(pids[..i + 1], mask + [ok]) == before;
        assert engine.bus.emitted == em && engine.players.Keys == ks;
      }
    }

    /**
     * `Admitted` grows by the `i`-th seat, whose player `p` the lobby judged `ok`, where `a` is
     * what the first `i` seats made of `a0`.
     */
    lemma AdmittedStep(lobbyId: string, seats: seq<Seat<MatchTicket>>, i: nat, mask: seq<bool>, made: seq<Player>, p: Player, ok: bool,
                       a0: Admission<Player>, a: Admission<Player>)
      requires i < |seats| && |made| == i && |mask| == i && a0.mask == [] && a0.placed == []
      requires lobbyId in engine.lobbies ==>
        a == Admitting(engine.ruleEngine.rules, engine.lobbies[lobbyId].maxPlayers, engine.lobbies[lobbyId].state, a0, seats[..i], made)
        && mask == a.mask && Stamped(lobbyId, made, a.placed)
      requires lobbyId in engine.lobbies ==>
        var o := Offer(engine.ruleEngine.rules, engine.lobbies[lobbyId].maxPlayers, engine.lobbies[lobbyId].state, a, seats[i], p);
        && o.mask == a.mask + [ok] && engine.lobbies[lobbyId].players == o.seated && engine.players == o.indexed
        && p.lobbyId == if o.placed[|a.placed|] then Some(lobbyId) else None
      requires lobbyId !in engine.lobbies ==>
        (forall k :: 0 <= k < |mask| ==> !mask[k]) && !ok && engine.players == a0.indexed
        && (forall k :: 0 <= k < i ==> made[k].lobbyId == None) && p.lobbyId == None
      ensures Admitted(lobbyId, seats, i + 1, mask + [ok], made + [p], a0)
    {
      assert seats[..i + 1][..i] == seats[..i];
      if lobbyId in engine.lobbies {
        var lobby := engine.lobbies[lobbyId];
        AdmittingStep(engine.ruleEngine.rules, lobby.maxPlayers, lobby.state, a0, seats, made, p, i);
      }
    }

    /** The `remove_ticket` of the `i`-th seat, which leaves the engine's side as it is. */
    method RemoveOne(queue: MatchQueue, lobbyId: string, seats: seq<Seat<MatchTicket>>, i: nat, ghost mask: seq<bool>, ghost made: seq<Player>,
                     now: int, ghost t0: map<string, MatchTicket>, ghost k0: set<string>, ghost e0: seq<Events.EventRecord>,
                     ghost a0: Admission<Player>)
      requires i < |seats| && queue.Valid() && Removed(queue, seats, i, t0)
      requires Joined(lobbyId, seats, i + 1, mask, now, k0, e0) && Admitted(lobbyId, seats, i + 1, mask, made, a0)
      requires Sitting(seats[..i + 1], made)
      modifies queue`tickets, queue`order
      ensures queue.Valid() && Removed(queue, seats, i + 1, t0)
      ensures Joined(lobbyId, seats, i + 1, mask, now, k0, e0) && Admitted(lobbyId, seats, i + 1, mask, made, a0)
      ensures Sitting(seats[..i + 1], made)
    {
      var tids := TicketIds(seats);
      Seqs.PrefixElemsStep(tids, i);
      Seqs.MinusStep(t0, Seqs.Elems(tids[..i]), tids[i]);
      queue.RemoveTicket(seats[i].ticket.ticketId);
    }

    /**
     * `_create_match` at time `now`: a lobby for exactly the match under `match_{now}` (replacing
     * any lobby of that id), then the seats in order, each ticket leaving the queue, then
     * `match_created`. When team balancing raises, the lobby has already been made and announced
     * and nothing else happens.
     */
    method CreateMatch(queue: MatchQueue, group: seq<MatchTicket>, now: int)
      returns (raised: bool, ghost lobby: LobbyContext, ghost mask: seq<bool>, ghost made: seq<Player>)
      requires engine.Valid() && queue.Valid()
      modifies engine`lobbies, engine`players, engine.bus, engine.bus.sinks, queue`tickets, queue`order
      ensures engine.Valid() && queue.Valid()
      ensures engine.bus.listeners == old(engine.bus.listeners) && engine.bus.sinks == old(engine.bus.sinks)
      ensures raised <==> Seating(group, queue.teamMode, queue.teamSize, Skill).None?
      ensures fresh(lobby) && engine.lobbies == old(engine.lobbies)[MatchLobbyId(now) := lobby]
      ensures lobby.config == MatchConfig(queue.playersPerMatch)
      ensures raised ==>
        && queue.tickets == old(queue.tickets) && engine.players == old(engine.players)
        && engine.bus.emitted == old(engine.bus.emitted) + [Events.EventRecord(Engine.LobbyCreated, LobbyPayload(MatchLobbyId(now)), now)]
      ensures !raised ==> |mask| == |Seating(group, queue.teamMode, queue.teamSize, Skill).value|
      ensures !raised ==>
        var id := MatchLobbyId(now);
        var seats := Seating(group, queue.teamMode, queue.teamSize, Skill).value;
        var joined := Picked(PlayerIds(seats), mask);
        && queue.tickets == old(queue.tickets) - Seqs.Elems(TicketIds(seats))
        && engine.players.Keys == old(engine.players.Keys) + Seqs.Elems(joined)
        && engine.bus.emitted == old(engine.bus.emitted) + [Events.EventRecord(Engine.LobbyCreated, LobbyPayload(id), now)]
             + JoinRecords(id, joined, now) + [Events.EventRecord(MatchCreated, MatchPayload(id, queue.queueId, |group|), now)]
      ensures !raised ==> Sitting(Seating(group, queue.teamMode, queue.teamSize, Skill).value, made)
      ensures !raised ==>
        var seats := Seating(group, queue.teamMode, queue.teamSize, Skill).value;
        var a := Admitting(engine.ruleEngine.rules, queue.playersPerMatch, Waiting, Admission([], [], map[], old(engine.players)), seats, made);
        mask == a.mask && lobby.players == a.seated && engine.players == a.indexed && Stamped(MatchLobbyId(now), made, a.placed)
    {
      var lobbyId := MatchLobbyId(now);
      lobby := engine.CreateLobby(lobbyId, MatchConfig(queue.playersPerMatch), now);
      ghost var created := engine.bus.emitted;
      raised, mask, made := Populate(queue, lobbyId, group, now);
      assert raised ==> engine.bus.emitted == created;
    }

    /** `_create_match` after the lobby is made: balancing, seating and `match_created`. */
    method Populate(queue: MatchQueue, lobbyId: string, group: seq<MatchTicket>, now: int)
      returns (raised: bool, ghost mask: seq<bool>, ghost made: seq<Player>)
      requires engine.Valid() && queue.Valid()
      modifies engine`players, engine.LobbyRef(lobbyId)`players, engine.bus, engine.bus.sinks, queue`tickets, queue`order
      ensures engine.Valid() && queue.Valid()
      ensures engine.bus.listeners == old(engine.bus.listeners) && engine.bus.sinks == old(engine.bus.sinks)
      ensures raised <==> Seating(group, queue.teamMode, queue.teamSize, Skill).None?
      ensures raised ==> queue.tickets == old(queue.tickets) && engine.players == old(engine.players) && engine.bus.emitted == old(engine.bus.emitted)
      ensures !raised ==> |mask| == |Seating(group, queue.teamMode, queue.teamSize, Skill).value|
      ensures !raised ==>
        var seats := Seating(group, queue.teamMode, queue.teamSize, Skill).value;
        var joined := Picked(PlayerIds(seats), mask);
        && queue.tickets == old(queue.tickets) - Seqs.Elems(TicketIds(seats))
        && engine.players.Keys == old(engine.players.Keys) + Seqs.Elems(joined)
        && engine.bus.emitted == old(engine.bus.emitted) + JoinRecords(lobbyId, joined, now)
             + [Events.EventRecord(MatchCreated, MatchPayload(lobbyId, queue.queueId, |group|), now)]
      ensures !raised ==> Sitting(Seating(group, queue.teamMode, queue.teamSize, Skill).value, made)
      ensures !raised && lobbyId in engine.lobbies ==>
        var lobby := engine.lobbies[lobbyId];
        var seats := Seating(group, queue.teamMode, queue.teamSize, Skill).value;
        var a := Admitting(engine.ruleEngine.rules, lobby.maxPlayers, lobby.state, Admission([], [], old(lobby.players), old(engine.players)), seats, made);
        mask == a.mask && lobby.players == a.seated && engine.players == a.indexed && Stamped(lobbyId, made, a.placed)
    {
      var seating: Option<seq<Seat<MatchTicket>>>;
      if queue.teamMode {
        var teams := Balancer.BalanceBySkill(group, queue.teamSize, Skill);
        seating := if teams.Ok? then Some(Seats(teams.value)) else None;
      } else {
        seating := Some(PlainSeats(group));
      }
      raised := seating.None?;
      mask, made := [], [];
      if !raised {
        mask, made := SeatAndAnnounce(queue, lobbyId, seating.value, |group|, now);
      }
    }

    /** The seating loops and the `match_created` emit of `_create_match`, for the seats balancing gave. */
    method SeatAndAnnounce(queue: MatchQueue, lobbyId: string, seats: seq<Seat<MatchTicket>>, count: int, now: int)
      returns (ghost mask: seq<bool>, ghost made: seq<Player>)
      requires engine.Valid() && queue.Valid()
      modifies engine`players, engine.LobbyRef(lobbyId)`players, engine.bus, engine.bus.sinks, queue`tickets, queue`order
      ensures engine.Valid() && queue.Valid()
      ensures engine.bus.listeners == old(engine.bus.listeners) && engine.bus.sinks == old(engine.bus.sinks)
      ensures |mask| == |seats|
      ensures
        var joined := Picked(PlayerIds(seats), mask);
        && queue.tickets == old(queue.tickets) - Seqs.Elems(TicketIds(seats))
        && engine.players.Keys == old(engine.players.Keys) + Seqs.Elems(joined)
        && engine.bus.emitted == old(engine.bus.emitted) + JoinRecords(lobbyId, joined, now)
             + [Events.EventRecord(MatchCreated, MatchPayload(lobbyId, queue.queueId, count), now)]
      ensures Sitting(seats, made)
      ensures lobbyId in engine.lobbies ==>
        var lobby := engine.lobbies[lobbyId];
        var a := Admitting(engine.ruleEngine.rules, lobby.maxPlayers, lobby.state, Admission([], [], old(lobby.players), old(engine.players)), seats, made);
        mask == a.mask && lobby.players == a.seated && engine.players == a.indexed && Stamped(lobbyId, made, a.placed)
    {
      ghost var a0 := Admission([], [], if lobbyId in engine.lobbies then engine.lobbies[lobbyId].players else map[], engine.players);
      mask, made := SeatAll(queue, lobbyId, seats, now);
      AnnounceMatch(queue, lobbyId, count, now, seats, mask, made, a0);
    }

    /** The seats' players are `made`, and the lobby under `lobbyId` and those players stand as `Admitting` them from `a0` says. */
    ghost predicate Seated(lobbyId: string, seats: seq<Seat<MatchTicket>>, mask: seq<bool>, made: seq<Player>, a0: Admission<Player>)
      reads engine`lobbies, engine`players, engine.ruleEngine`rules, engine.lobbies.Values`players, engine.lobbies.Values`state, made`team, made`lobbyId
    {
      && Sitting(seats, made)
      && (lobbyId in engine.lobbies ==>
            var lobby := engine.lobbies[lobbyId];
            var a := Admitting(engine.ruleEngine.rules, lobby.maxPlayers, lobby.state, a0, seats, made);
            mask == a.mask && lobby.players == a.seated && engine.players == a.indexed && Stamped(lobbyId, made, a.placed))
    }

    /** The `match_created` emit of `_create_match`, which leaves the seating as it is. */
    method AnnounceMatch(queue: MatchQueue, lobbyId: string, count: int, now: int,
                         ghost seats: seq<Seat<MatchTicket>>, ghost mask: seq<bool>, ghost made: seq<Player>, ghost a0: Admission<Player>)
      requires engine.Valid() && queue.Valid() && Seated(lobbyId, seats, mask, made, a0)
      modifies engine.bus, engine.bus.sinks
      ensures engine.Valid() && queue.Valid() && queue.tickets == old(queue.tickets) && Seated(lobbyId, seats, mask, made, a0)
      ensures engine.bus.listeners == old(engine.bus.listeners) && engine.bus.sinks == old(engine.bus.sinks)
      ensures engine.players == old(engine.players)
      ensures engine.bus.emitted == old(engine.bus.emitted) + [Events.EventRecord(MatchCreated, MatchPayload(lobbyId, queue.queueId, count), now)]
    {
      engine.Announce(MatchCreated, MatchPayload(lobbyId, queue.queueId, count), now);
    }

    /** Every ticket object filed in some queue. */
    ghost function AllTickets(): (r: set<MatchTicket>)
      reads this, queues.Values
      ensures forall k :: k in queues ==> queues[k].tickets.Values <= r
    {
      set k, t | k in queues && t in queues[k].tickets.Values :: t
    }

    /**
     * `_process_queues`: every queue in insertion order has its matches found and made. The
     * first raise ends the pass (`_matching_loop` catches it and retries a second later);
     * `done` queues were reached, `made` matches were made, the `m`-th at `clock(m)`.
     */
    method ProcessQueues(now: int, clock: nat -> int) returns (raised: bool, done: nat, made: nat)
      requires Valid()
      modifies engine`lobbies, engine`players, engine.bus, engine.bus.sinks
      modifies queues.Values`tickets, queues.Values`order, AllTickets()`status
      ensures Valid()
      ensures engine.bus.listeners == old(engine.bus.listeners) && engine.bus.sinks == old(engine.bus.sinks)
      ensures done <= |order| && (!raised ==> done == |order|)
      ensures old(engine.lobbies.Keys) <= engine.lobbies.Keys
      ensures forall j :: done <= j < |order| ==> queues[order[j]].tickets == old(queues[order[j]].tickets)
    {
      ghost var all := AllTickets();
      ghost var before := map k | k in queues :: queues[k].tickets;
      raised := false;
      done := 0;
      made := 0;
      while done < |order| && !raised
        invariant Passed(done, all, before, old(engine.lobbies.Keys), old(engine.bus.listeners), old(engine.bus.sinks))
      {
        raised, made := VisitQueue(now, clock, done, made, all, before, old(engine.lobbies.Keys), old(engine.bus.listeners), old(engine.bus.sinks));
        done := done + 1;
      }
    }

    /**
     * The state of a pass once `done` queues are processed: what it keeps of the matcher, the
     * queues not yet reached as they were (`before`), and every lobby open when it began (`keys`).
     */
    ghost predicate Passed(done: nat, all: set<MatchTicket>,
                           before: map<string, map<string, MatchTicket>>, keys: set<string>,
                           listeners: map<string, seq<Events.Listener>>, sinks: set<Metrics.Counters>)
      reads this, engine, engine.bus, queues.Values
    {
      && Valid() && done <= |order|
      && engine.bus.listeners == listeners && engine.bus.sinks == sinks
      && (forall k :: k in queues ==> queues[k].tickets.Values <= all)
      && (forall j :: done <= j < |order| ==> order[j] in before && queues[order[j]].tickets == before[order[j]])
      && keys <= engine.lobbies.Keys
    }

    /** One turn of `_process_queues`: the `done`-th queue is processed. */
    method VisitQueue(now: int, clock: nat -> int, done: nat, made: nat, ghost all: set<MatchTicket>,
                      ghost before: map<string, map<string, MatchTicket>>, ghost keys: set<string>,
                      ghost listeners: map<string, seq<Events.Listener>>, ghost sinks: set<Metrics.Counters>)
      returns (raised: bool, made': nat)
      requires done < |order| && Passed(done, all, before, keys, listeners, sinks)
      modifies engine`lobbies, engine`players, engine.bus, engine.bus.sinks
      modifies queues.Values`tickets, queues.Values`order, all`status
      ensures Passed(done + 1, all, before, keys, listeners, sinks)
    {
      var queue := queues[order[done]];
      assert forall j :: done < j < |order| ==> order[j] != order[done] && queues[order[j]] != queue;
      var count;
      raised, count := RunQueue(queue, now, clock, made);
      made' := made + count;
    }

    /** `ProcessQueue` as a pass sees it: the queue only loses tickets, and lobbies are opened. */
    method RunQueue(queue: MatchQueue, now: int, clock: nat -> int, made: nat) returns (raised: bool, count: nat)
      requires engine.Valid() && queue.Valid()
      modifies engine`lobbies, engine`players, engine.bus, engine.bus.sinks, queue`tickets, queue`order, queue.tickets.Values`status
      ensures engine.Valid() && queue.Valid()
      ensures engine.bus.listeners == old(engine.bus.listeners) && engine.bus.sinks == old(engine.bus.sinks)
      ensures queue.tickets.Values <= old(queue.tickets.Values)
      ensures old(engine.lobbies.Keys) <= engine.lobbies.Keys
    {
      ghost var active, groups, removed;
      raised, count, active, groups, removed := ProcessQueue(queue, now, clock, made);
    }

    /**
     * `_find_matches` at `now` has passed over `tickets`, whose statuses and queue times were
     * `view`: each lapsed ticket is timed out and every other keeps its status.
     */
    static ghost predicate Flipped(tickets: map<string, MatchTicket>, view: map<string, TicketState>, limit: int, now: int)
      reads tickets.Values`status
    {
      forall k :: k in tickets && k in view ==> tickets[k].status == if Lapsed(view[k], limit, now) then TimedOut else view[k].status
    }

    /** `active` holds the tickets filed under the ids `live`, in that order. */
    static ghost predicate Gathered(live: seq<string>, tickets: map<string, MatchTicket>, active: seq<MatchTicket>) {
      |active| == |live| && forall j :: 0 <= j < |active| ==> live[j] in tickets && active[j] == tickets[live[j]]
    }

    /**
     * A queue's pass given what finding its matches gave: a raise while finding makes nothing;
     * otherwise the found groups are made in order, all of them unless one raises.
     */
    static ghost predicate Outcome(r: Result<seq<seq<MatchTicket>>, RangeError>, raised: bool, count: nat, groups: seq<seq<MatchTicket>>) {
      && (r.Err? ==> raised && count == 0)
      && (r.Ok? ==> groups == r.value && count <= |groups| && (!raised ==> count == |groups|))
    }

    /**
     * `_process_queues` on one queue: its matches are found, then made one by one, the `m`-th
     * match of the pass at `clock(m)` (matches made before this queue: `made`). Stops at the first
     * raise: a match size of zero while finding, or a team balance while making.
     */
    method ProcessQueue(queue: MatchQueue, now: int, clock: nat -> int, made: nat)
      returns (raised: bool, count: nat, ghost active: seq<MatchTicket>, ghost groups: seq<seq<MatchTicket>>,
               ghost removed: set<string>)
      requires engine.Valid() && queue.Valid()
      modifies engine`lobbies, engine`players, engine.bus, engine.bus.sinks, queue`tickets, queue`order, queue.tickets.Values`status
      ensures engine.Valid() && queue.Valid()
      ensures engine.bus.listeners == old(engine.bus.listeners) && engine.bus.sinks == old(engine.bus.sinks)
      ensures queue.tickets == old(queue.tickets) - removed
      ensures Gathered(old(LiveIds(queue.order, queue.View(), queue.WaitLimit(), now)), old(queue.tickets), active)
      ensures Outcome(MatchSpec(active, queue.playersPerMatch, queue.maxSkillDiff, Skill), raised, count, groups)
      ensures removed == TakenAll(groups[..count], queue.teamMode, queue.teamSize)
      ensures Flipped(old(queue.tickets), old(queue.View()), queue.WaitLimit(), now)
      ensures engine.lobbies.Keys == old(engine.lobbies.Keys) + Seqs.Elems(MatchIdSeq(Stamps(clock, made, count)))
    {
      ghost var live := old(LiveIds(queue.order, queue.View(), queue.WaitLimit(), now));
      ghost var tickets := queue.tickets;
      var r;
      ghost var view := queue.View();
      r, active := FindMatches(queue, now);
      assert Gathered(live, tickets, active);
      assert Flipped(tickets, view, queue.WaitLimit(), now);
      count := 0;
      groups := [];
      removed := {};
      if r.Err? {
        raised := true;
      } else {
        groups := r.value;
        StampsAt(clock, made, |r.value|);
        raised, count, removed := MakeMatches(queue, r.value, Stamps(clock, made, |r.value|), tickets, view, now);
        StampsPrefix(clock, made, |r.value|, count);
      }
    }

    /** The inner loop of `_process_queues`: makes the found matches in order until one raises. */
    method MakeMatches(queue: MatchQueue, ms: seq<seq<MatchTicket>>, stamps: seq<int>,
                       ghost tickets: map<string, MatchTicket>, ghost view: map<string, TicketState>, ghost now: int)
      returns (raised: bool, count: nat, ghost removed: set<string>)
      requires engine.Valid() && queue.Valid() && |stamps| == |ms| && Flipped(tickets, view, queue.WaitLimit(), now)
      modifies engine`lobbies, engine`players, engine.bus, engine.bus.sinks, queue`tickets, queue`order
      ensures engine.Valid() && queue.Valid()
      ensures engine.bus.listeners == old(engine.bus.listeners) && engine.bus.sinks == old(engine.bus.sinks)
      ensures queue.tickets == old(queue.tickets) - removed
      ensures count <= |ms| && (!raised ==> count == |ms|)
      ensures removed == TakenAll(ms[..count], queue.teamMode, queue.teamSize)
      ensures Flipped(tickets, view, queue.WaitLimit(), now)
      ensures engine.lobbies.Keys == old(engine.lobbies.Keys) + Seqs.Elems(MatchIdSeq(stamps[..count]))
    {
      raised := false;
      count := 0;
      removed := {};
      ghost var ids := [];
      while count < |ms| && !raised
        invariant count <= |ms| && engine.Valid() && queue.Valid()
        invariant engine.bus.listeners == old(engine.bus.listeners) && engine.bus.sinks == old(engine.bus.sinks)
        invariant queue.tickets == old(queue.tickets) - removed
        invariant removed == TakenAll(ms[..count], queue.teamMode, queue.teamSize)
        invariant Flipped(tickets, view, queue.WaitLimit(), now)
        invariant ids == MatchIdSeq(stamps[..count])
        invariant engine.lobbies.Keys == old(engine.lobbies.Keys) + Seqs.Elems(ids)
      {
        ghost var keys := engine.lobbies.Keys;
        var failed, gone := MakeOne(queue, ms[count], stamps[count], tickets, view, now);
        Seqs.AppendElems(ids, MatchLobbyId(stamps[count]), old(engine.lobbies.Keys), keys, engine.lobbies.Keys);
        ids := ids + [MatchLobbyId(stamps[count])];
        MatchIdSeqStep(stamps, count);
        Seqs.MinusSets(old(queue.tickets), removed, gone);
        TakenAllStep(ms, queue.teamMode, queue.teamSize, count);
        removed := removed + gone;
        raised := failed;
        count := count + 1;
      }
    }

    /** `CreateMatch`, seen from the loop of `MakeMatches`: one more lobby id, and no ticket gained. */
    method MakeOne(queue: MatchQueue, group: seq<MatchTicket>, now: int,
                   ghost tickets: map<string, MatchTicket>, ghost view: map<string, TicketState>, ghost found: int)
      returns (raised: bool, ghost removed: set<string>)
      requires engine.Valid() && queue.Valid() && Flipped(tickets, view, queue.WaitLimit(), found)
      modifies engine`lobbies, engine`players, engine.bus, engine.bus.sinks, queue`tickets, queue`order
      ensures engine.Valid() && queue.Valid()
      ensures engine.bus.listeners == old(engine.bus.listeners) && engine.bus.sinks == old(engine.bus.sinks)
      ensures queue.tickets == old(queue.tickets) - removed
      ensures engine.lobbies.Keys == old(engine.lobbies.Keys) + {MatchLobbyId(now)}
      ensures raised <==> Seating(group, queue.teamMode, queue.teamSize, Skill).None?
      ensures removed == Taken(group, queue.teamMode, queue.teamSize)
      ensures Flipped(tickets, view, queue.WaitLimit(), found)
    {
      ghost var lobby, mask, made;
      raised, lobby, mask, made := CreateMatch(queue, group, now);
      removed := Taken(group, queue.teamMode, queue.teamSize);
    }
  }
}
