/**
 * The counters of the analytics service (backend/services/analytics.py): a per-event-name
 * count and a map of named integer metrics, both Python `defaultdict(int)`s.
 */
module Metrics {

  const TotalEvents := "total_events"

  /** A defaultdict(int) read: absent names read as 0. */
  function Get(m: map<string, int>, k: string): int {
    if k in m then m[k] else 0
  }

  /** `n` increments of `m[k]` (no entry is created when `n` is 0). */
  function Bump(m: map<string, int>, k: string, n: nat): (r: map<string, int>)
    ensures Get(r, k) == Get(m, k) + n
    ensures forall j :: j != k ==> (j in r <==> j in m) && Get(r, j) == Get(m, j)
  {
    if n == 0 then m else m[k := Get(m, k) + n]
  }

  lemma BumpTwice(m: map<string, int>, k: string, a: nat, b: nat)
    ensures Bump(Bump(m, k, a), k, b) == Bump(m, k, a + b)
  {
  }

  class Counters {
    var eventCounts: map<string, int>
    var metrics: map<string, int>

    constructor ()
      ensures eventCounts == map[] && metrics == map[]
    {
      eventCounts := map[];
      metrics := map[];
    }

    /** `_track_event`: one more occurrence of `name`, one more event in total. */
    method TrackEvent(name: string)
      modifies this
      ensures eventCounts == Bump(old(eventCounts), name, 1)
      ensures metrics == Bump(old(metrics), TotalEvents, 1)
    {
      eventCounts := eventCounts[name := Get(eventCounts, name) + 1];
      metrics := metrics[TotalEvents := Get(metrics, TotalEvents) + 1];
    }

    /** `increment_metric`: adds `amount` (which may be negative) to the named metric. */
    method IncrementMetric(name: string, amount: int)
      modifies this`metrics
      ensures GetMetric(name) == old(GetMetric(name)) + amount
      ensures name in metrics
      ensures forall j :: j != name ==> Get(metrics, j) == Get(old(metrics), j)
    {
      metrics := metrics[name := Get(metrics, name) + amount];
    }

    /** `track_custom_metric`: overwrites the named metric. */
    method TrackCustomMetric(name: string, value: int)
      modifies this`metrics
      ensures metrics == old(metrics)[name := value]
    {
      metrics := metrics[name := value];
    }

    /** `get_metric`: the metric's value, 0 for a name never set. */
    function GetMetric(name: string): (r: int)
      reads this
      ensures name !in metrics ==> r == 0
      ensures name in metrics ==> r == metrics[name]
    {
      Get(metrics, name)
    }

    /** `reset_metrics`: both counters emptied. */
    method ResetMetrics()
      modifies this
      ensures eventCounts == map[] && metrics == map[]
    {
      metrics := map[];
      eventCounts := map[];
    }
  }
}
