/**
 * A matchmaking queue (backend/matchmaking/queues.py): tickets keyed by id, in insertion order,
 * with lazy expiry of stale tickets and periodic reaping. Times are integer milliseconds; the
 * configured `max_wait_time` is in seconds, as in the source.
 */
module Queues {
  import opened Wrappers
  import Seqs
  import opened Tickets

  /** A queue config dict; every key is optional. */
  datatype QueueConfig = QueueConfig(
    playersPerMatch: Option<int>, maxSkillDiff: Option<int>, teamMode: Option<bool>,
    teamSize: Option<int>, maxWaitTime: Option<int>, priorityEnabled: Option<bool>)

  /** Tickets older than this (3600 s) are reaped whatever their status. */
  const MaxTicketAge := 3600000

  /** What `get_active_tickets` looks at in a ticket. */
  datatype TicketState = TicketState(status: string, queuedAt: int)

  /**
   * The ids among `ids`, in order, of the tickets still queued within the wait limit in `view`
   * (`limit` in milliseconds).
   */
  function LiveIds(ids: seq<string>, view: map<string, TicketState>, limit: int, now: int): (r: seq<string>)
    ensures |r| <= |ids|
    ensures forall k :: k in r ==> k in ids && k in view && view[k].status == Queued && !Lapsed(view[k], limit, now)
  {
    if ids == [] then []
    else
      var k := ids[|ids| - 1];
      LiveIds(ids[..|ids| - 1], view, limit, now)
        + (if k in view && view[k].status == Queued && !Lapsed(view[k], limit, now) then [k] else [])
  }

  lemma LiveIdsStep(ids: seq<string>, i: nat, view: map<string, TicketState>, limit: int, now: int)
    requires i < |ids|
    ensures LiveIds(ids[..i + 1], view, limit, now) == LiveIds(ids[..i], view, limit, now)
      + (if ids[i] in view && view[ids[i]].status == Queued && !Lapsed(view[ids[i]], limit, now) then [ids[i]] else [])
  {
    assert ids[..i + 1][..i] == ids[..i];
  }

  /** A queued ticket that has waited longer than `limit`. */
  predicate Lapsed(s: TicketState, limit: int, now: int) {
    s.status == Queued && now - s.queuedAt > limit
  }

  /** Whether `clear_expired_tickets` reaps a ticket. */
  predicate Expired(t: MatchTicket, now: int)
    reads t`status
  {
    t.status == TimedOut || t.status == Cancelled || now - t.createdAt > MaxTicketAge
  }

  class MatchQueue {
    const queueId: string
    const config: QueueConfig
    var tickets: map<string, MatchTicket>
    /** The insertion order of `tickets`' keys. */
    var order: seq<string>
    const createdAt: int
    const playersPerMatch: int
    const maxSkillDiff: int
    const teamMode: bool
    const teamSize: int
    const maxWaitTime: int
    const priorityEnabled: bool

    /** `order` lists each key once, and every ticket is filed under its own id. */
    ghost predicate Valid()
      reads this
    {
      && Seqs.Lists(order, tickets.Keys)
      && (forall k :: k in tickets ==> tickets[k].ticketId == k)
    }

    /** Defaults: 10 players per match, a skill spread of 200, no teams, teams of 5, 300 s wait. */
    constructor (queueId: string, config: QueueConfig, now: int)
      ensures Valid() && tickets == map[] && order == []
      ensures this.queueId == queueId && this.config == config && createdAt == now
      ensures playersPerMatch == config.playersPerMatch.GetOr(10)
      ensures maxSkillDiff == config.maxSkillDiff.GetOr(200)
      ensures teamMode == config.teamMode.GetOr(false)
      ensures teamSize == config.teamSize.GetOr(5)
      ensures maxWaitTime == config.maxWaitTime.GetOr(300)
      ensures priorityEnabled == config.priorityEnabled.GetOr(false)
    {
      this.queueId := queueId;
      this.config := config;
      tickets := map[];
      order := [];
      createdAt := now;
      playersPerMatch := config.playersPerMatch.GetOr(10);
      maxSkillDiff := config.maxSkillDiff.GetOr(200);
      teamMode := config.teamMode.GetOr(false);
      teamSize := config.teamSize.GetOr(5);
      maxWaitTime := config.maxWaitTime.GetOr(300);
      priorityEnabled := config.priorityEnabled.GetOr(false);
    }

    /** The wait limit in milliseconds. */
    function WaitLimit(): int {
      maxWaitTime * 1000
    }

    /** The status and queue time of every ticket, by id. */
    ghost function View(): map<string, TicketState>
      reads this, tickets.Values
    {
      map k | k in tickets :: TicketState(tickets[k].status, tickets[k].queuedAt)
    }

    /**
     * `add_ticket`: files the ticket under its id (a replaced id keeps its place in the order)
     * and restarts its wait.
     */
    method AddTicket(ticket: MatchTicket, now: int)
      requires Valid()
      modifies this`tickets, this`order, ticket`queuedAt
      ensures Valid()
      ensures tickets == old(tickets)[ticket.ticketId := ticket] && ticket.queuedAt == now
      ensures order == if ticket.ticketId in old(tickets) then old(order) else old(order) + [ticket.ticketId]
    {
      if ticket.ticketId !in tickets {
        Seqs.AppendLists(order, tickets.Keys, ticket.ticketId);
        order := order + [ticket.ticketId];
      }
      tickets := tickets[ticket.ticketId := ticket];
      ticket.queuedAt := now;
    }

    /** `remove_ticket`: deletes exactly that id; a no-op when absent. */
    method RemoveTicket(ticketId: string)
      requires Valid()
      modifies this`tickets, this`order
      ensures Valid()
      ensures tickets == old(tickets) - {ticketId}
      ensures order == Seqs.Without(old(order), ticketId)
    {
      Seqs.WithoutLists(order, tickets.Keys, ticketId);
      if ticketId in tickets {
        tickets := tickets - {ticketId};
        order := Seqs.Without(order, ticketId);
      } else {
        Seqs.WithoutAbsent(order, ticketId);
      }
    }

    function GetTicket(ticketId: string): (r: Option<MatchTicket>)
      reads this`tickets
      ensures r.Some? <==> ticketId in tickets
      ensures r.Some? ==> r.value == tickets[ticketId]
    {
      if ticketId in tickets then Some(tickets[ticketId]) else None
    }

    /**
     * `get_active_tickets`: the queued tickets within the wait limit, in queue order. Every
     * queued ticket past the limit is flipped to `'timeout'` on the way; nothing is removed and
     * no other ticket changes.
     */
    method GetActiveTickets(now: int) returns (active: seq<MatchTicket>)
      requires Valid()
      modifies tickets.Values`status
      ensures var live := LiveIds(order, old(View()), WaitLimit(), now);
        |active| == |live| && forall j :: 0 <= j < |active| ==> live[j] in tickets && active[j] == tickets[live[j]]
      ensures forall k :: k in tickets ==>
        tickets[k].status == if Lapsed(old(View())[k], WaitLimit(), now) then TimedOut else old(tickets[k].status)
    {
      ghost var view := View();
      assert order[..0] == [];
      ghost var ids;
      ids, active := Scan(now, view);
      assert order[..|order|] == order;
      forall k | k in tickets
        ensures tickets[k].status == if Lapsed(view[k], WaitLimit(), now) then TimedOut else view[k].status
      {
        var j :| 0 <= j < |order| && order[j] == k;
      }
    }

    /** The loop of `get_active_tickets`, over every ticket in order. */
    method Scan(now: int, ghost view: map<string, TicketState>) returns (ghost ids: seq<string>, active: seq<MatchTicket>)
      requires Progress(0, now, view, [], [])
      modifies tickets.Values`status
      ensures Progress(|order|, now, view, ids, active)
    {
      ids, active := [], [];
      var i := 0;
      while i < |order|
        invariant i <= |order| && Progress(i, now, view, ids, active)
      {
        ids, active := Step(i, now, view, ids, active);
        i := i + 1;
      }
    }

    /**
     * Where `get_active_tickets` stands after the first `i` tickets in order: `ids` are the live
     * ones among them and `active` their tickets, the lapsed ones among them are flipped, and
     * `view` still describes every ticket's queue time.
     */
    ghost predicate Progress(i: nat, now: int, view: map<string, TicketState>, ids: seq<string>, active: seq<MatchTicket>)
      reads this, tickets.Values
    {
      Collected(i, now, view, ids, active) && Scanned(i, now, view)
    }

    /** The part of `Progress` about the lists built so far, which no status change affects. */
    ghost predicate Collected(i: nat, now: int, view: map<string, TicketState>, ids: seq<string>, active: seq<MatchTicket>)
      reads this
    {
      && Valid()
      && i <= |order|
      && view.Keys == tickets.Keys
      && ids == LiveIds(order[..i], view, WaitLimit(), now)
      && |active| == |ids|
      && (forall j :: 0 <= j < |ids| ==> ids[j] in tickets && active[j] == tickets[ids[j]])
    }

    /** The body of the `get_active_tickets` loop, on the `i`-th ticket in order. */
    method Step(i: nat, now: int, ghost view: map<string, TicketState>, ghost ids: seq<string>, active: seq<MatchTicket>)
      returns (ghost ids': seq<string>, active': seq<MatchTicket>)
      requires i < |order| && Progress(i, now, view, ids, active)
      modifies TicketRef(order[i])`status
      ensures Progress(i + 1, now, view, ids', active')
    {
      var t := tickets[order[i]];
      assert Collected(i, now, view, ids, active);
      var live := Visit(i, now, view);
      ids', active' := ids, active;
      if live {
        active' := active + [t];
        ids' := ids + [order[i]];
      }
      CollectedStep(i, now, view, ids, active, live);
    }

    /** One more ticket in order: a live one joins both lists, any other joins neither. */
    lemma CollectedStep(i: nat, now: int, view: map<string, TicketState>, ids: seq<string>, active: seq<MatchTicket>, live: bool)
      requires i < |order| && Collected(i, now, view, ids, active)
      requires live <==> view[order[i]].status == Queued && !Lapsed(view[order[i]], WaitLimit(), now)
      ensures Collected(i + 1, now, view,
                        ids + (if live then [order[i]] else []),
                        active + (if live then [tickets[order[i]]] else []))
    {
      LiveIdsStep(order, i, view, WaitLimit(), now);
      var ids', active' := ids + (if live then [order[i]] else []), active + (if live then [tickets[order[i]]] else []);
      forall j | 0 <= j < |ids'|
        ensures ids'[j] in tickets && active'[j] == tickets[ids'[j]]
      {
        if j < |ids| {
          assert ids'[j] == ids[j] && active'[j] == active[j];
        }
      }
    }

    /**
     * The status of every ticket after the first `i` of `order` have been visited: the visited
     * ones are flipped to `'timeout'` when lapsed in `view`, the others are as in `view`.
     */
    ghost predicate Scanned(i: nat, now: int, view: map<string, TicketState>)
      reads this, tickets.Values
    {
      && (forall k :: k in tickets && k in view ==> tickets[k].queuedAt == view[k].queuedAt)
      && forall j :: 0 <= j < |order| && order[j] in tickets && order[j] in view ==>
        tickets[order[j]].status ==
          if j < i && Lapsed(view[order[j]], WaitLimit(), now) then TimedOut else view[order[j]].status
    }

    /** The ticket filed under `k`. */
    function TicketRef(k: string): MatchTicket
      requires k in tickets
      reads this
    {
      tickets[k]
    }

    /**
     * One step of `get_active_tickets`, on the `i`-th ticket in order: flips it when lapsed, and
     * says whether it is live.
     */
    method Visit(i: nat, now: int, ghost view: map<string, TicketState>) returns (live: bool)
      requires Valid() && i < |order| && view.Keys == tickets.Keys
      requires Scanned(i, now, view)
      modifies TicketRef(order[i])`status
      ensures Scanned(i + 1, now, view)
      ensures live <==> view[order[i]].status == Queued && !Lapsed(view[order[i]], WaitLimit(), now)
    {
      var t := tickets[order[i]];
      live := false;
      if t.status == Queued {
        if now - t.queuedAt > WaitLimit() {
          t.status := TimedOut;
        } else {
          live := true;
        }
      }
      forall j | 0 <= j < |order| && j != i
        ensures tickets[order[j]].status == old(tickets[order[j]].status)
      {
        assert tickets[order[j]].ticketId == order[j] != order[i];
      }
    }

    /** `get_queue_length`: the tickets whose status is `'queued'`, stale or not. */
    function GetQueueLength(): (n: nat)
      reads this, tickets.Values`status
      ensures n <= |tickets|
      ensures n == 0 <==> forall k :: k in tickets ==> tickets[k].status != Queued
      ensures n == |tickets| <==> forall k :: k in tickets ==> tickets[k].status == Queued
    {
      var queued := set k | k in tickets && tickets[k].status == Queued;
      Seqs.SubsetSize(queued, tickets.Keys);
      Seqs.SubsetEqualSize(queued, tickets.Keys);
      assert (forall k :: k in tickets ==> tickets[k].status == Queued) ==> queued == tickets.Keys;
      assert queued != {} ==> exists k :: k in tickets && tickets[k].status == Queued;
      assert forall k :: k in tickets && tickets[k].status == Queued ==> k in queued;
      |queued|
    }

    /** The ids among `ids`, in order, of tickets that `clear_expired_tickets` reaps. */
    function ExpiredIds(ids: seq<string>, now: int): (r: seq<string>)
      requires forall k :: k in ids ==> k in tickets
      reads this, tickets.Values`status
      ensures forall k :: k in r <==> k in ids && Expired(tickets[k], now)
      ensures Seqs.Distinct(ids) ==> Seqs.Distinct(r)
    {
      if ids == [] then []
      else
        var k := ids[|ids| - 1];
        assert forall x :: x in ids[..|ids| - 1] ==> x in ids;
        ExpiredIds(ids[..|ids| - 1], now) + if Expired(tickets[k], now) then [k] else []
    }

    /** The ids of the tickets that `clear_expired_tickets` reaps at `now`. */
    ghost function Reaped(now: int): set<string>
      reads this, tickets.Values`status
    {
      set k | k in tickets && Expired(tickets[k], now)
    }

    /**
     * `clear_expired_tickets`: removes exactly the tickets that are timed out, cancelled or older
     * than an hour, and keeps every other ticket as it was, in its old place in the order.
     */
    method ClearExpiredTickets(now: int)
      requires Valid()
      modifies this`tickets, this`order
      ensures Valid()
      ensures forall k :: k in tickets <==> k in old(tickets) && !Expired(old(tickets)[k], now)
      ensures forall k :: k in tickets ==> tickets[k] == old(tickets)[k]
      ensures order == Seqs.Kept(old(order), old(Reaped(now)))
    {
      ghost var reaped := Reaped(now);
      var expired := [];
      var i := 0;
      while i < |order|
        invariant 0 <= i <= |order|
        invariant expired == ExpiredIds(order[..i], now)
      {
        var t := tickets[order[i]];
        assert order[..i + 1][..i] == order[..i];
        if t.status == TimedOut || t.status == Cancelled {
          expired := expired + [order[i]];
        } else if now - t.createdAt > MaxTicketAge {
          expired := expired + [order[i]];
        }
        i := i + 1;
      }
      assert order[..i] == order;
      assert Seqs.Elems(expired) == reaped;
      RemoveTickets(expired);
    }

    /** The `for ticket_id in expired: self.remove_ticket(ticket_id)` loop. */
    method RemoveTickets(ids: seq<string>)
      requires Valid()
      modifies this`tickets, this`order
      ensures Valid()
      ensures tickets == old(tickets) - Seqs.Elems(ids)
      ensures order == Seqs.Kept(old(order), Seqs.Elems(ids))
    {
      var j := 0;
      Seqs.KeptNothing(order);
      assert Seqs.Elems(ids[..0]) == {};
      while j < |ids|
        invariant 0 <= j <= |ids|
        invariant Valid() && Removed(ids, j, old(tickets), old(order))
      {
        RemoveNext(ids, j, old(tickets), old(order));
        j := j + 1;
      }
      assert ids[..j] == ids;
    }

    /** After the first `j` listed ids are removed from the map `t0` and the order `o0`. */
    ghost predicate Removed(ids: seq<string>, j: nat, t0: map<string, MatchTicket>, o0: seq<string>)
      reads this
    {
      j <= |ids| && tickets == t0 - Seqs.Elems(ids[..j]) && order == Seqs.Kept(o0, Seqs.Elems(ids[..j]))
    }

    /** One iteration of `RemoveTickets`: the `j`-th listed id goes, from the map and the order. */
    method RemoveNext(ids: seq<string>, j: nat, ghost t0: map<string, MatchTicket>, ghost o0: seq<string>)
      requires Valid() && j < |ids| && Removed(ids, j, t0, o0)
      modifies this`tickets, this`order
      ensures Valid() && Removed(ids, j + 1, t0, o0)
    {
      Seqs.PrefixElemsStep(ids, j);
      Seqs.MinusStep(t0, Seqs.Elems(ids[..j]), ids[j]);
      Seqs.KeptStep(o0, ids, j);
      RemoveTicket(ids[j]);
    }
  }
}
