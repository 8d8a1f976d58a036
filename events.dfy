/**
 * The event bus (backend/core/events.py): named subscriptions, a bounded replayable history
 * and synchronous dispatch in subscription order, where a failing listener is isolated.
 *
 * Listeners are a closed datatype. `Track` is the analytics service's `_track_event`, which
 * increments a `Metrics.Counters`; `External` is a callback outside this model (the transport
 * broadcast, say) whose only observable behaviour is whether it raises, decided per event name.
 */
module Events {
  import Metrics
  import Seqs

  /** A value in an event's data dict. */
  datatype Value = Str(s: string) | Int(i: int) | Bool(b: bool)

  type Payload = map<string, Value>

  /** `{'event': name, 'data': data or {}, 'timestamp': now}` */
  datatype EventRecord = EventRecord(event: string, data: Payload, timestamp: int)

  datatype Listener =
    | Track(counters: Metrics.Counters)
    | External(id: nat, failsOn: set<string>)

  /** One call of a listener during an emit, and whether the call raised. */
  datatype Delivery = Delivery(listener: Listener, record: EventRecord, raised: bool)

  const MaxHistory: nat := 1000

  predicate Raises(l: Listener, r: EventRecord) {
    l.External? && r.event in l.failsOn
  }

  /** The deliveries one emit makes: every listener, in subscription order. */
  function DeliveriesOf(ls: seq<Listener>, r: EventRecord): (ds: seq<Delivery>)
    ensures |ds| == |ls|
    ensures forall i :: 0 <= i < |ls| ==> ds[i] == Delivery(ls[i], r, Raises(ls[i], r))
  {
    seq(|ls|, i requires 0 <= i < |ls| => Delivery(ls[i], r, Raises(ls[i], r)))
  }

  /** How often the analytics callback on `c` is subscribed in `ls`. */
  function Occurrences(c: Metrics.Counters, ls: seq<Listener>): nat {
    multiset(ls)[Track(c)]
  }

  /** Python `history[-limit:]`. */
  function Recent(h: seq<EventRecord>, limit: int): (r: seq<EventRecord>)
    ensures |r| <= |h|
    ensures limit > 0 ==> |r| == (if limit < |h| then limit else |h|)
    ensures limit >= 0 ==> r == h[|h| - |r|..]
    ensures limit < 0 ==> r == h[|h| - |r|..] && |r| == (if -limit < |h| then |h| + limit else 0)
  {
    if limit > 0 then h[(if limit < |h| then |h| - limit else 0)..]
    else if limit == 0 then h
    else h[(if -limit < |h| then -limit else |h|)..]
  }

  lemma OccurrencesStep(c: Metrics.Counters, ls: seq<Listener>, i: nat)
    requires i < |ls|
    ensures Occurrences(c, ls[..i + 1]) == Occurrences(c, ls[..i]) + (if ls[i] == Track(c) then 1 else 0)
  {
    assert ls[..i + 1] == ls[..i] + [ls[i]];
  }

  lemma DeliveriesStep(ls: seq<Listener>, i: nat, r: EventRecord)
    requires i < |ls|
    ensures DeliveriesOf(ls[..i + 1], r) == DeliveriesOf(ls[..i], r) + [Delivery(ls[i], r, Raises(ls[i], r))]
  {
    var a := DeliveriesOf(ls[..i + 1], r);
    var b := DeliveriesOf(ls[..i], r) + [Delivery(ls[i], r, Raises(ls[i], r))];
    assert |a| == |b|;
    forall j | 0 <= j < |a| ensures a[j] == b[j] {
      assert ls[..i + 1][j] == ls[j];
      if j < i {
        assert ls[..i][j] == ls[j];
      }
    }
  }

  /** The first occurrence of `x` in `s` taken out (Python `list.remove`). */
  function RemoveFirst(s: seq<Listener>, x: Listener): (r: seq<Listener>)
    requires x in s
    ensures multiset(r) == multiset(s) - multiset{x}
    ensures |r| == |s| - 1
    ensures forall y :: y in r ==> y in s
  {
    assert s == [s[0]] + s[1..];
    if s[0] == x then s[1..]
    else [s[0]] + RemoveFirst(s[1..], x)
  }

  class EventBus {
    var listeners: map<string, seq<Listener>>
    var history: seq<EventRecord>
    const maxHistory: nat
    /** Every record ever emitted, oldest first. */
    ghost var emitted: seq<EventRecord>
    /** `|emitted|` at the last clear_history. */
    ghost var clearedAt: nat
    /** Every listener call ever made, in order. */
    ghost var deliveries: seq<Delivery>
    /** Every analytics counter ever subscribed: what an emit may change besides the bus. */
    ghost var sinks: set<Metrics.Counters>

    ghost function HistoryStart(): int
      reads this
    {
      if |emitted| - maxHistory > clearedAt then |emitted| - maxHistory else clearedAt
    }

    /** History is the last (at most `maxHistory`) records emitted since the last clear. */
    ghost predicate Valid()
      reads this
      ensures Valid() ==> |history| <= maxHistory
    {
      && maxHistory == MaxHistory
      && clearedAt <= |emitted|
      && history == emitted[HistoryStart()..]
      && (forall n, l :: n in listeners && l in listeners[n] && l.Track? ==> l.counters in sinks)
    }

    /** The listeners subscribed to `name`, in subscription order. */
    function ListenersOf(name: string): seq<Listener>
      reads this
    {
      if name in listeners then listeners[name] else []
    }

    constructor ()
      ensures Valid()
      ensures listeners == map[] && history == [] && emitted == [] && deliveries == [] && sinks == {}
    {
      listeners := map[];
      history := [];
      maxHistory := MaxHistory;
      emitted := [];
      clearedAt := 0;
      deliveries := [];
      sinks := {};
      new;
      assert HistoryStart() == 0 && history == emitted[0..];
    }

    /** `on`: appends `l` to the listeners of `name`, creating the list when absent. */
    method On(name: string, l: Listener)
      requires Valid()
      modifies this`listeners, this`sinks
      ensures Valid()
      ensures listeners == old(listeners)[name := old(ListenersOf(name)) + [l]]
      ensures sinks == old(sinks) + if l.Track? then {l.counters} else {}
    {
      listeners := listeners[name := ListenersOf(name) + [l]];
      if l.Track? {
        sinks := sinks + {l.counters};
      }
    }

    /**
     * `off`: nothing happens for an unknown name; for a known name the first subscription of `l`
     * is removed, and when there is none `list.remove` raises (`raised`).
     */
    method Off(name: string, l: Listener) returns (raised: bool)
      requires Valid()
      modifies this`listeners
      ensures Valid()
      ensures raised <==> name in old(listeners) && l !in old(listeners[name])
      ensures listeners ==
        if name in old(listeners) && l in old(listeners[name])
        then old(listeners)[name := RemoveFirst(old(listeners[name]), l)]
        else old(listeners)
    {
      raised := false;
      if name in listeners {
        if l in listeners[name] {
          listeners := listeners[name := RemoveFirst(listeners[name], l)];
        } else {
          raised := true;
        }
      }
    }

    /**
     * `emit`: the record is appended to the history whether or not anyone listens (the oldest
     * entry falls out beyond `maxHistory`), then every listener of `name` is called in
     * subscription order; a listener that raises does not stop the others and does not reach
     * the caller.
     */
    method Emit(name: string, data: Payload, now: int)
      requires Valid()
      modifies this, sinks
      ensures Valid()
      ensures listeners == old(listeners) && clearedAt == old(clearedAt) && sinks == old(sinks)
      ensures emitted == old(emitted) + [EventRecord(name, data, now)]
      ensures history == if |old(history)| < maxHistory then old(history) + [EventRecord(name, data, now)]
                         else old(history)[1..] + [EventRecord(name, data, now)]
      ensures deliveries == old(deliveries) + DeliveriesOf(ListenersOf(name), EventRecord(name, data, now))
      ensures forall c :: c in sinks ==>
        && c.eventCounts == Metrics.Bump(old(c.eventCounts), name, Occurrences(c, ListenersOf(name)))
        && c.metrics == Metrics.Bump(old(c.metrics), Metrics.TotalEvents, Occurrences(c, ListenersOf(name)))
    {
      var rec := EventRecord(name, data, now);
      history := history + [rec];
      if |history| > maxHistory {
        history := history[1..];
      }
      emitted := emitted + [rec];
      Dispatch(ListenersOf(name), rec);
    }

    /**
     * One listener of `Dispatch`: a tracking listener bumps its own counters, an external one
     * changes nothing here, and either way its delivery is recorded.
     */
    method DispatchOne(ls: seq<Listener>, i: nat, rec: EventRecord,
                       ghost counts0: map<Metrics.Counters, map<string, int>>, ghost metrics0: map<Metrics.Counters, map<string, int>>)
      requires i < |ls| && forall l :: l in ls && l.Track? ==> l.counters in sinks
      requires Counted(ls[..i], rec, counts0, metrics0)
      modifies this`deliveries, sinks
      ensures deliveries == old(deliveries) + [Delivery(ls[i], rec, Raises(ls[i], rec))]
      ensures Counted(ls[..i + 1], rec, counts0, metrics0)
    {
      match ls[i] {
        case Track(c) =>
          c.TrackEvent(rec.event);
        case External(_, _) =>
          // Whether it raises is recorded below; the exception is caught and goes no further.
      }
      forall d | d in sinks
        ensures d.eventCounts == Metrics.Bump(counts0[d], rec.event, Occurrences(d, ls[..i + 1]))
        ensures d.metrics == Metrics.Bump(metrics0[d], Metrics.TotalEvents, Occurrences(d, ls[..i + 1]))
      {
        OccurrencesStep(d, ls, i);
        if ls[i] == Track(d) {
          Metrics.BumpTwice(counts0[d], rec.event, Occurrences(d, ls[..i]), 1);
          Metrics.BumpTwice(metrics0[d], Metrics.TotalEvents, Occurrences(d, ls[..i]), 1);
        } else {
          assert d.eventCounts == old(d.eventCounts) && d.metrics == old(d.metrics);
        }
      }
      deliveries := deliveries + [Delivery(ls[i], rec, Raises(ls[i], rec))];
    }

    /** Every sink has been bumped once per tracking listener of `done`, from `counts0` and `metrics0`. */
    ghost predicate Counted(done: seq<Listener>, rec: EventRecord,
                            counts0: map<Metrics.Counters, map<string, int>>, metrics0: map<Metrics.Counters, map<string, int>>)
      reads this, sinks
    {
      && sinks <= counts0.Keys && sinks <= metrics0.Keys
      && forall c :: c in sinks ==>
        && c.eventCounts == Metrics.Bump(counts0[c], rec.event, Occurrences(c, done))
        && c.metrics == Metrics.Bump(metrics0[c], Metrics.TotalEvents, Occurrences(c, done))
    }

    /** Calls every listener in `ls` in order, isolating the ones that raise. */
    method Dispatch(ls: seq<Listener>, rec: EventRecord)
      requires forall l :: l in ls && l.Track? ==> l.counters in sinks
      modifies this`deliveries, sinks
      ensures deliveries == old(deliveries) + DeliveriesOf(ls, rec)
      ensures forall c :: c in sinks ==>
        && c.eventCounts == Metrics.Bump(old(c.eventCounts), rec.event, Occurrences(c, ls))
        && c.metrics == Metrics.Bump(old(c.metrics), Metrics.TotalEvents, Occurrences(c, ls))
    {
      ghost var counts0: map<Metrics.Counters, map<string, int>> := map c | c in sinks :: c.eventCounts;
      ghost var metrics0: map<Metrics.Counters, map<string, int>> := map c | c in sinks :: c.metrics;
      var i := 0;
      while i < |ls|
        invariant 0 <= i <= |ls|
        invariant deliveries == old(deliveries) + DeliveriesOf(ls[..i], rec)
        invariant Counted(ls[..i], rec, counts0, metrics0)
      {
        DeliveriesStep(ls, i, rec);
        DispatchOne(ls, i, rec, counts0, metrics0);
        i := i + 1;
      }
      assert ls[..|ls|] == ls;
      assert forall c :: c in sinks ==> counts0[c] == old(c.eventCounts) && metrics0[c] == old(c.metrics);
    }

    /** `get_history(limit)`: Python `history[-limit:]`. */
    function GetHistory(limit: int): (r: seq<EventRecord>)
      reads this
      ensures limit > 0 ==> |r| == (if limit < |history| then limit else |history|)
      ensures limit > 0 ==> r == history[|history| - |r|..]
      ensures limit == 0 ==> r == history
    {
      Recent(history, limit)
    }

    /** `clear_history`: history emptied, subscriptions untouched. */
    method ClearHistory()
      requires Valid()
      modifies this`history, this`clearedAt
      ensures Valid()
      ensures history == [] && listeners == old(listeners)
    {
      history := [];
      clearedAt := |emitted|;
    }
  }

  /** With a valid bus, history never exceeds 1000 entries. */
  lemma HistoryBounded(b: EventBus)
    requires b.Valid()
    ensures |b.history| <= 1000
  {
  }

  /**
   * `get_history(k)` for `k > 0` returns the `k` most recent records emitted since the last clear
   * (all of them, when fewer are kept), oldest first.
   */
  lemma {:induction false} GetHistoryIsLatest(b: EventBus, k: int)
    requires b.Valid() && 0 < k
    ensures var r := b.GetHistory(k);
      && r == b.emitted[|b.emitted| - |r|..]
      && |r| == (if k < |b.history| then k else |b.history|)
      && |b.history| == (if |b.emitted| - b.clearedAt < 1000 then |b.emitted| - b.clearedAt else 1000)
  {
    var r := b.GetHistory(k);
    assert b.history == b.emitted[b.HistoryStart()..];
    assert r == b.history[|b.history| - |r|..];
  }
}
