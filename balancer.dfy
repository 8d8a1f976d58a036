/**
 * Team balancing (backend/matchmaking/balancer.py): the skill-based strategy sorts the tickets by
 * descending skill and deals each one to the team whose skill sum is currently lowest (the first
 * such team on a tie). It is generic here in the element type and the skill key, so that the
 * matcher can use it on tickets and the examples on plain numbers.
 */
module Balancer {
  import opened Wrappers

  /** The two ways `_balance_by_skill` raises: `len // 0`, and `min([])` with no teams to fill. */
  datatype Failure = ZeroDivision | EmptyMin

  ghost predicate SortedDesc<T>(s: seq<T>, key: T -> int) {
    forall i, j :: 0 <= i < j < |s| ==> key(s[i]) >= key(s[j])
  }

  ghost predicate SortedAsc<T>(s: seq<T>, key: T -> int) {
    forall i, j :: 0 <= i < j < |s| ==> key(s[i]) <= key(s[j])
  }

  /** `x` placed before the first element of `s` whose key is not above its own. */
  function InsertDesc<T>(x: T, s: seq<T>, key: T -> int): (r: seq<T>)
    ensures multiset(r) == multiset(s) + multiset{x}
  {
    if s == [] || key(s[0]) <= key(x) then [x] + s
    else
      assert s == [s[0]] + s[1..];
      [s[0]] + InsertDesc(x, s[1..], key)
  }

  lemma {:induction false} InsertDescSorted<T>(x: T, s: seq<T>, key: T -> int)
    requires SortedDesc(s, key)
    ensures SortedDesc(InsertDesc(x, s, key), key)
    decreases |s|
  {
    if s != [] && key(s[0]) > key(x) {
      TailSorted(s, key);
      InsertDescSorted(x, s[1..], key);
      var t := InsertDesc(x, s[1..], key);
      forall y | y in t ensures key(y) <= key(s[0]) {
        Member(y, t, x, s[1..]);
        if y != x {
          var k :| 0 <= k < |s[1..]| && s[1..][k] == y;
          assert s[1..][k] == s[k + 1];
        }
      }
      ConsSortedDesc(s[0], t, key);
    }
  }

  /** What a multiset sum says about membership. */
  lemma Member<T>(y: T, t: seq<T>, x: T, s: seq<T>)
    requires multiset(t) == multiset(s) + multiset{x} && y in t
    ensures y == x || y in s
  {
    assert y in multiset(t);
  }

  lemma TailSorted<T>(s: seq<T>, key: T -> int)
    requires s != [] && SortedDesc(s, key)
    ensures SortedDesc(s[1..], key)
  {
    forall i, j | 0 <= i < j < |s| - 1 ensures key(s[1..][i]) >= key(s[1..][j]) {
      assert s[1..][i] == s[i + 1] && s[1..][j] == s[j + 1];
    }
  }

  lemma ConsSortedDesc<T>(h: T, t: seq<T>, key: T -> int)
    requires SortedDesc(t, key) && forall y :: y in t ==> key(y) <= key(h)
    ensures SortedDesc([h] + t, key)
  {
    var r := [h] + t;
    forall i, j | 0 <= i < j < |r| ensures key(r[i]) >= key(r[j]) {
      assert r[j] == t[j - 1];
      if i > 0 {
        assert r[i] == t[i - 1];
      }
    }
  }

  /**
   * `sorted(s, key=key, reverse=True)`: an insertion sort that keeps equal keys in their input
   * order, as Python's stable sort does also when reversed.
   */
  function SortDesc<T>(s: seq<T>, key: T -> int): (r: seq<T>)
    ensures multiset(r) == multiset(s) && |r| == |s|
    ensures SortedDesc(r, key)
  {
    if s == [] then []
    else
      assert s == [s[0]] + s[1..];
      InsertDescSorted(s[0], SortDesc(s[1..], key), key);
      InsertDesc(s[0], SortDesc(s[1..], key), key)
  }

  /** `x` placed before the first element of `s` whose key is not below its own. */
  function InsertAsc<T>(x: T, s: seq<T>, key: T -> int): (r: seq<T>)
    ensures multiset(r) == multiset(s) + multiset{x}
  {
    if s == [] || key(s[0]) >= key(x) then [x] + s
    else
      assert s == [s[0]] + s[1..];
      [s[0]] + InsertAsc(x, s[1..], key)
  }

  lemma {:induction false} InsertAscSorted<T>(x: T, s: seq<T>, key: T -> int)
    requires SortedAsc(s, key)
    ensures SortedAsc(InsertAsc(x, s, key), key)
    decreases |s|
  {
    if s != [] && key(s[0]) < key(x) {
      TailSortedAsc(s, key);
      InsertAscSorted(x, s[1..], key);
      var t := InsertAsc(x, s[1..], key);
      forall y | y in t ensures key(y) >= key(s[0]) {
        Member(y, t, x, s[1..]);
        if y != x {
          var k :| 0 <= k < |s[1..]| && s[1..][k] == y;
          assert s[1..][k] == s[k + 1];
        }
      }
      ConsSortedAsc(s[0], t, key);
    }
  }

  lemma TailSortedAsc<T>(s: seq<T>, key: T -> int)
    requires s != [] && SortedAsc(s, key)
    ensures SortedAsc(s[1..], key)
  {
    forall i, j | 0 <= i < j < |s| - 1 ensures key(s[1..][i]) <= key(s[1..][j]) {
      assert s[1..][i] == s[i + 1] && s[1..][j] == s[j + 1];
    }
  }

  lemma ConsSortedAsc<T>(h: T, t: seq<T>, key: T -> int)
    requires SortedAsc(t, key) && forall y :: y in t ==> key(y) >= key(h)
    ensures SortedAsc([h] + t, key)
  {
    var r := [h] + t;
    forall i, j | 0 <= i < j < |r| ensures key(r[i]) <= key(r[j]) {
      assert r[j] == t[j - 1];
      if i > 0 {
        assert r[i] == t[i - 1];
      }
    }
  }

  /** `sorted(s, key=key)`, stable. */
  function SortAsc<T>(s: seq<T>, key: T -> int): (r: seq<T>)
    ensures multiset(r) == multiset(s) && |r| == |s|
    ensures SortedAsc(r, key)
  {
    if s == [] then []
    else
      assert s == [s[0]] + s[1..];
      InsertAscSorted(s[0], SortAsc(s[1..], key), key);
      InsertAsc(s[0], SortAsc(s[1..], key), key)
  }

  /**
   * `len(tickets) // team_size` as a team count. Python floors the quotient; a negative size
   * gives a quotient of at most zero, and both `range` and `[0] * n` then give empty lists.
   */
  function NumTeams(n: nat, teamSize: int): (k: nat)
    requires teamSize != 0
    ensures teamSize > 0 ==> k * teamSize <= n < (k + 1) * teamSize
    ensures teamSize < 0 ==> k == 0
  {
    if teamSize > 0 then n / teamSize else 0
  }

  /** `xs.index(min(xs))`: the first position holding the least value. */
  function MinIndex(xs: seq<int>): (m: nat)
    requires |xs| > 0
    ensures m < |xs|
    ensures forall j :: 0 <= j < |xs| ==> xs[m] <= xs[j]
    ensures forall j :: 0 <= j < m ==> xs[j] > xs[m]
  {
    if |xs| == 1 then 0
    else
      var m := MinIndex(xs[..|xs| - 1]);
      if xs[|xs| - 1] < xs[m] then |xs| - 1 else m
  }

  function Sum<T>(s: seq<T>, key: T -> int): int {
    if s == [] then 0 else Sum(s[..|s| - 1], key) + key(s[|s| - 1])
  }

  /** The teams' members one after another. */
  function Flatten<T>(ts: seq<seq<T>>): seq<T> {
    if ts == [] then [] else Flatten(ts[..|ts| - 1]) + ts[|ts| - 1]
  }

  /** The teams and their running skill sums. */
  datatype Split<T> = Split(teams: seq<seq<T>>, sums: seq<int>)

  /** One step of the greedy loop: `x` joins the lightest team, whose sum grows by its key. */
  function Place<T>(d: Split<T>, x: T, key: T -> int): (e: Split<T>)
    requires |d.sums| > 0 && |d.teams| == |d.sums|
    ensures |e.teams| == |e.sums| == |d.sums|
  {
    var m := MinIndex(d.sums);
    Split(d.teams[m := d.teams[m] + [x]], d.sums[m := d.sums[m] + key(x)])
  }

  /** `[[] for _ in range(k)]` */
  function Empties<T>(k: nat): (ts: seq<seq<T>>)
    ensures |ts| == k && forall j :: 0 <= j < k ==> ts[j] == []
  {
    seq(k, _ => [])
  }

  /** `k` empty teams, then every element of `s` in order dealt by `Place`. */
  function Deal<T>(s: seq<T>, k: nat, key: T -> int): (d: Split<T>)
    requires k > 0 || s == []
    ensures |d.teams| == |d.sums| == k
  {
    if s == [] then Split(Empties(k), seq(k, _ => 0))
    else Place(Deal(s[..|s| - 1], k, key), s[|s| - 1], key)
  }

  /** What `_balance_by_skill(s, team_size)` returns or raises. */
  function BalanceSpec<T>(s: seq<T>, teamSize: int, key: T -> int): Result<seq<seq<T>>, Failure> {
    if teamSize == 0 then Err(ZeroDivision)
    else
      var k := NumTeams(|s|, teamSize);
      if k == 0 && s != [] then Err(EmptyMin)
      else Ok(Deal(SortDesc(s, key), k, key).teams)
  }

  /**
   * `_balance_by_skill` (also what `balance_teams` runs, its strategy being fixed to
   * `'skill_based'`): the greedy deal of the descending sort, or the error it raises.
   */
  method BalanceBySkill<T>(tickets: seq<T>, teamSize: int, key: T -> int) returns (r: Result<seq<seq<T>>, Failure>)
    ensures r == BalanceSpec(tickets, teamSize, key)
  {
    if teamSize == 0 {
      r := Err(ZeroDivision);
    } else {
      var sorted := SortDesc(tickets, key);
      var k := NumTeams(|tickets|, teamSize);
      if k == 0 && sorted != [] {
        // The first iteration takes `min` of the empty list of sums.
        r := Err(EmptyMin);
      } else {
        var teams := DealSorted(sorted, k, key);
        r := Ok(teams);
      }
    }
  }

  /** The loop of `_balance_by_skill`: each ticket in turn joins the team with the smallest sum. */
  method DealSorted<T>(sorted: seq<T>, k: nat, key: T -> int) returns (teams: seq<seq<T>>)
    requires k > 0 || sorted == []
    ensures teams == Deal(sorted, k, key).teams
  {
    teams := Empties(k);
    var sums: seq<int> := seq(k, _ => 0);
    var i := 0;
    while i < |sorted|
      invariant 0 <= i <= |sorted|
      invariant Split(teams, sums) == Deal(sorted[..i], k, key)
    {
      DealStep(sorted, i, k, key);
      teams, sums := PlaceOne(teams, sums, sorted[i], key);
      i := i + 1;
    }
    assert sorted[..i] == sorted;
  }

  /** One iteration: `min(range(k), key=lambda t: team_sums[t])`, then append and add. */
  method PlaceOne<T>(teams: seq<seq<T>>, sums: seq<int>, x: T, key: T -> int) returns (teams': seq<seq<T>>, sums': seq<int>)
    requires |sums| > 0 && |teams| == |sums|
    ensures Split(teams', sums') == Place(Split(teams, sums), x, key)
  {
    var m := MinIndex(sums);
    teams' := teams[m := teams[m] + [x]];
    sums' := sums[m := sums[m] + key(x)];
  }

  /** Adding `x` to one team adds exactly `x` to the teams' members. */
  lemma {:induction false} FlattenAppend<T>(ts: seq<seq<T>>, m: nat, x: T)
    requires m < |ts|
    ensures multiset(Flatten(ts[m := ts[m] + [x]])) == multiset(Flatten(ts)) + multiset{x}
    decreases |ts|
  {
    var us := ts[m := ts[m] + [x]];
    var n := |ts| - 1;
    assert Flatten(ts) == Flatten(ts[..n]) + ts[n];
    assert Flatten(us) == Flatten(us[..n]) + us[n];
    if m == n {
      assert us[..n] == ts[..n];
      assert multiset(ts[n] + [x]) == multiset(ts[n]) + multiset{x};
    } else {
      assert us[..n] == ts[..n][m := ts[m] + [x]];
      FlattenAppend(ts[..n], m, x);
      assert us[n] == ts[n];
    }
  }

  lemma {:induction false} FlattenEmpty<T>(k: nat)
    ensures Flatten(Empties<T>(k)) == []
  {
    if k > 0 {
      assert Empties<T>(k)[..k - 1] == Empties<T>(k - 1);
      FlattenEmpty<T>(k - 1);
    }
  }

  lemma SumAppend<T>(s: seq<T>, x: T, key: T -> int)
    ensures Sum(s + [x], key) == Sum(s, key) + key(x)
  {
    assert (s + [x])[..|s|] == s;
  }

  lemma DealStep<T>(s: seq<T>, i: nat, k: nat, key: T -> int)
    requires i < |s| && k > 0
    ensures Deal(s[..i + 1], k, key) == Place(Deal(s[..i], k, key), s[i], key)
  {
    assert s[..i + 1][..i] == s[..i];
  }

  /** The deal keeps every element exactly once across the teams. */
  lemma {:induction false} DealKeepsAll<T>(s: seq<T>, k: nat, key: T -> int)
    requires k > 0 || s == []
    ensures multiset(Flatten(Deal(s, k, key).teams)) == multiset(s)
    decreases |s|
  {
    if s == [] {
      FlattenEmpty<T>(k);
    } else {
      var n := |s| - 1;
      DealKeepsAll(s[..n], k, key);
      var d := Deal(s[..n], k, key);
      FlattenAppend(d.teams, MinIndex(d.sums), s[n]);
      assert s == s[..n] + [s[n]];
    }
  }

  /** Each running sum of the deal is the sum of its team's keys. */
  lemma {:induction false} DealSums<T>(s: seq<T>, k: nat, key: T -> int)
    requires k > 0 || s == []
    ensures forall j :: 0 <= j < k ==> Deal(s, k, key).sums[j] == Sum(Deal(s, k, key).teams[j], key)
    decreases |s|
  {
    if s != [] {
      var n := |s| - 1;
      DealSums(s[..n], k, key);
      var d := Deal(s[..n], k, key);
      SumAppend(d.teams[MinIndex(d.sums)], s[n], key);
    }
  }

  /**
   * With a team count of `len // team_size` at least one, the result has exactly that many teams,
   * holds every ticket exactly once, and each team's skill sum is the one the deal tracked.
   */
  lemma {:induction false} BalanceIsPartition<T>(s: seq<T>, teamSize: int, key: T -> int)
    requires teamSize > 0 && |s| >= teamSize
    ensures var r := BalanceSpec(s, teamSize, key);
      && r.Ok?
      && |r.value| == |s| / teamSize
      && multiset(Flatten(r.value)) == multiset(s)
      && forall j :: 0 <= j < |r.value| ==>
           Deal(SortDesc(s, key), |s| / teamSize, key).sums[j] == Sum(r.value[j], key)
  {
    DealKeepsAll(SortDesc(s, key), NumTeams(|s|, teamSize), key);
    DealSums(SortDesc(s, key), NumTeams(|s|, teamSize), key);
  }

  /**
   * The greedy deal stays balanced: when every key lies in `[0, top]`, no team's sum exceeds
   * another's by more than `top`. Each step adds at most `top` to a team that was the lightest.
   */
  lemma {:induction false} DealGap<T>(s: seq<T>, k: nat, key: T -> int, top: int)
    requires k > 0
    requires forall i :: 0 <= i < |s| ==> 0 <= key(s[i]) <= top
    ensures forall i, j :: 0 <= i < k && 0 <= j < k ==>
      Deal(s, k, key).sums[i] - Deal(s, k, key).sums[j] <= (if s == [] then 0 else top)
    decreases |s|
  {
    if s != [] {
      var n := |s| - 1;
      var p := s[..n];
      assert forall i :: 0 <= i < |p| ==> p[i] == s[i];
      DealGap(p, k, key, top);
      var d := Deal(p, k, key);
      var m := MinIndex(d.sums);
      assert 0 <= key(s[n]) <= top;
      var e := Deal(s, k, key);
      assert e.sums == d.sums[m := d.sums[m] + key(s[n])];
      forall i, j | 0 <= i < k && 0 <= j < k ensures e.sums[i] - e.sums[j] <= top {
        assert d.sums[i] - d.sums[j] <= top;
        assert d.sums[m] <= d.sums[j];
      }
    }
  }

  /**
   * What `_balance_by_skill` promises of non-negative skills: the heaviest and the lightest team
   * differ by at most the largest single skill, `key(sorted[0])`.
   */
  lemma BalanceGap<T>(s: seq<T>, teamSize: int, key: T -> int)
    requires teamSize > 0 && |s| >= teamSize
    requires forall i :: 0 <= i < |s| ==> key(s[i]) >= 0
    ensures var top := key(SortDesc(s, key)[0]);
      && (forall i :: 0 <= i < |s| ==> key(s[i]) <= top)
      && (exists i :: 0 <= i < |s| && key(s[i]) == top)
    ensures var r := BalanceSpec(s, teamSize, key);
      && r.Ok?
      && forall i, j :: 0 <= i < |r.value| && 0 <= j < |r.value| ==>
           Sum(r.value[i], key) - Sum(r.value[j], key) <= key(SortDesc(s, key)[0])
  {
    var sorted := SortDesc(s, key);
    var k := |s| / teamSize;
    var top := key(sorted[0]);
    forall i | 0 <= i < |s| ensures 0 <= key(s[i]) <= top {
      assert s[i] in multiset(sorted);
      var j :| 0 <= j < |sorted| && sorted[j] == s[i];
      if j > 0 {
        assert key(sorted[0]) >= key(sorted[j]);
      }
    }
    forall i | 0 <= i < |sorted| ensures 0 <= key(sorted[i]) <= top {
      assert sorted[i] in multiset(s);
      var j :| 0 <= j < |s| && s[j] == sorted[i];
    }
    assert sorted[0] in multiset(s);
    var w :| 0 <= w < |s| && s[w] == sorted[0];
    BalanceIsPartition(s, teamSize, key);
    DealGap(sorted, k, key, top);
  }

  /** The error cases: a team size of zero, and nonempty input that makes no team. */
  lemma BalanceErrors<T>(s: seq<T>, teamSize: int, key: T -> int)
    ensures BalanceSpec(s, teamSize, key) == Err(ZeroDivision) <==> teamSize == 0
    ensures BalanceSpec(s, teamSize, key) == Err(EmptyMin) <==>
      teamSize != 0 && s != [] && (teamSize < 0 || |s| < teamSize)
    ensures s == [] && teamSize != 0 ==> BalanceSpec(s, teamSize, key) == Ok([])
  {
    if teamSize > 0 && |s| < teamSize {
      assert NumTeams(|s|, teamSize) == 0;
    }
    if teamSize > 0 && |s| >= teamSize {
      assert NumTeams(|s|, teamSize) >= 1;
    }
  }

  /** The identity key, for examples on plain skill numbers. */
  function Id(x: int): int { x }

  /** Sorting what is already in descending order changes nothing. */
  lemma {:induction false} SortDescSorted<T>(s: seq<T>, key: T -> int)
    requires SortedDesc(s, key)
    ensures SortDesc(s, key) == s
    decreases |s|
  {
    if s != [] {
      TailSorted(s, key);
      SortDescSorted(s[1..], key);
      assert s == [s[0]] + s[1..];
    }
  }

  /** Input already in descending order is dealt as it stands. */
  lemma BalanceOfSorted<T>(s: seq<T>, teamSize: int, key: T -> int)
    requires SortedDesc(s, key) && 0 < teamSize <= |s|
    ensures BalanceSpec(s, teamSize, key) == Ok(Deal(s, |s| / teamSize, key).teams)
  {
    SortDescSorted(s, key);
  }

  /** The empty deal into two teams. */
  lemma DealTwoEmpty<T>(key: T -> int)
    ensures Deal([], 2, key) == Split([[], []], [0, 0])
  {
    assert Empties<T>(2) == [[], []];
    assert seq(2, _ => 0) == [0, 0];
  }

  /** Dealing a four-element sequence into two teams, one `Place` at a time. */
  lemma DealFour<T>(s: seq<T>, key: T -> int)
    requires |s| == 4
    ensures Deal(s, 2, key) ==
      Place(Place(Place(Place(Split([[], []], [0, 0]), s[0], key), s[1], key), s[2], key), s[3], key)
  {
    DealTwoEmpty(key);
    DealStep(s, 0, 2, key);
    DealStep(s, 1, 2, key);
    DealStep(s, 2, 2, key);
    DealStep(s, 3, 2, key);
    assert s[..4] == s && s[..0] == [];
  }

  /** The greedy steps for skills 100, 90, 80, 70. */
  lemma PlaceSteps()
    ensures Place(Place(Place(Place(Split([[], []], [0, 0]), 100, Id), 90, Id), 80, Id), 70, Id)
      == Split([[100, 70], [90, 80]], [170, 170])
  {
    var d0 := Split([[], []], [0, 0]);
    assert MinIndex([0, 0]) == 0 && [] + [100] == [100];
    var d1 := Place(d0, 100, Id);
    assert d1 == Split([[100], []], [100, 0]);
    assert MinIndex([100, 0]) == 1 && [] + [90] == [90];
    var d2 := Place(d1, 90, Id);
    assert d2 == Split([[100], [90]], [100, 90]);
    assert MinIndex([100, 90]) == 1 && [90] + [80] == [90, 80];
    var d3 := Place(d2, 80, Id);
    assert d3 == Split([[100], [90, 80]], [100, 170]);
    assert MinIndex([100, 170]) == 0 && [100] + [70] == [100, 70];
  }

  /** Skills 100, 90, 80, 70 in teams of two: both teams sum to 170. */
  lemma BalanceExample()
    ensures BalanceSpec([100, 90, 80, 70], 2, Id) == Ok([[100, 70], [90, 80]])
  {
    BalanceOfSorted([100, 90, 80, 70], 2, Id);
    DealFour([100, 90, 80, 70], Id);
    PlaceSteps();
  }

  /** The greedy steps for skills 100, 1, 1, 1. */
  lemma PlaceStepsUncapped()
    ensures Place(Place(Place(Place(Split([[], []], [0, 0]), 100, Id), 1, Id), 1, Id), 1, Id)
      == Split([[100], [1, 1, 1]], [100, 3])
  {
    var d0 := Split([[], []], [0, 0]);
    assert MinIndex([0, 0]) == 0 && [] + [100] == [100];
    var d1 := Place(d0, 100, Id);
    assert d1 == Split([[100], []], [100, 0]);
    assert MinIndex([100, 0]) == 1 && [] + [1] == [1];
    var d2 := Place(d1, 1, Id);
    assert d2 == Split([[100], [1]], [100, 1]);
    assert MinIndex([100, 1]) == 1 && [1] + [1] == [1, 1];
    var d3 := Place(d2, 1, Id);
    assert d3 == Split([[100], [1, 1]], [100, 2]);
    assert MinIndex([100, 2]) == 1 && [1, 1] + [1] == [1, 1, 1];
  }

  /** Team sizes are not capped: skills 100, 1, 1, 1 in teams of two give teams of one and three. */
  lemma UncappedExample()
    ensures BalanceSpec([100, 1, 1, 1], 2, Id) == Ok([[100], [1, 1, 1]])
  {
    BalanceOfSorted([100, 1, 1, 1], 2, Id);
    DealFour([100, 1, 1, 1], Id);
    PlaceStepsUncapped();
  }
}
