/** Small facts about sequences of keys that stand for the insertion order of a Python dict. */
module Seqs {

  /** No key occurs twice. */
  ghost predicate Distinct(s: seq<string>) {
    forall i, j :: 0 <= i < j < |s| ==> s[i] != s[j]
  }

  /** The order `s` lists exactly the keys `ks`, each once. */
  ghost predicate Lists(s: seq<string>, ks: set<string>) {
    Distinct(s) && (forall k :: k in s <==> k in ks)
  }

  /** `s` with every occurrence of `x` taken out, the rest kept in order. */
  function Without(s: seq<string>, x: string): (r: seq<string>)
    ensures x !in r
    ensures forall y :: y in r <==> y in s && y != x
    ensures |r| <= |s|
  {
    if s == [] then []
    else if s[0] == x then Without(s[1..], x)
    else [s[0]] + Without(s[1..], x)
  }

  lemma {:induction false} WithoutDistinct(s: seq<string>, x: string)
    requires Distinct(s)
    ensures Distinct(Without(s, x))
  {
    if s != [] {
      WithoutDistinct(s[1..], x);
      if s[0] != x {
        assert s[0] !in s[1..];
      }
    }
  }

  lemma WithoutLists(s: seq<string>, ks: set<string>, x: string)
    requires Lists(s, ks)
    ensures Lists(Without(s, x), ks - {x})
  {
    WithoutDistinct(s, x);
  }

  lemma {:induction false} WithoutAbsent(s: seq<string>, x: string)
    requires x !in s
    ensures Without(s, x) == s
  {
    if s != [] {
      WithoutAbsent(s[1..], x);
    }
  }

  /** Appending a fresh key keeps the listing exact. */
  lemma AppendLists(s: seq<string>, ks: set<string>, x: string)
    requires Lists(s, ks) && x !in ks
    ensures Lists(s + [x], ks + {x})
  {
  }

  /** An exact listing of a key set has one entry per key. */
  lemma {:induction false} ListsLength(s: seq<string>, ks: set<string>)
    requires Lists(s, ks)
    ensures |s| == |ks|
  {
    if s != [] {
      var rest := s[1..];
      assert Lists(rest, ks - {s[0]}) by {
        forall k ensures k in rest <==> k in ks - {s[0]} {
          if k in rest {
            var j :| 0 <= j < |rest| && rest[j] == k;
            assert s[j + 1] == k;
          }
          if k in ks - {s[0]} {
            var j :| 0 <= j < |s| && s[j] == k;
            assert j != 0;
            assert rest[j - 1] == k;
          }
        }
      }
      ListsLength(rest, ks - {s[0]});
    } else {
      assert forall k :: k !in ks;
      assert ks == {};
    }
  }


  /** A subset is no larger than its superset. */
  lemma {:induction false} SubsetSize(a: set<string>, b: set<string>)
    requires a <= b
    ensures |a| <= |b|
  {
    if a != {} {
      var x :| x in a;
      SubsetSize(a - {x}, b - {x});
    }
  }

  /** A subset as large as its superset is the superset. */
  lemma SubsetEqualSize(a: set<string>, b: set<string>)
    requires a <= b
    ensures |a| == |b| ==> a == b
  {
    if a != b {
      var x :| x in b && x !in a;
      SubsetSize(a, b - {x});
    }
  }

  /** The keys of `ks`, each once, in some order. */
  method Enumerate(ks: set<string>) returns (s: seq<string>)
    ensures Lists(s, ks) && |s| == |ks|
  {
    s := [];
    var todo := ks;
    while todo != {}
      invariant todo <= ks
      invariant Lists(s, ks - todo)
      invariant |s| + |todo| == |ks|
      decreases todo
    {
      var k :| k in todo;
      s := s + [k];
      todo := todo - {k};
    }
    assert ks - todo == ks;
  }

  /** The keys occurring in `s`. */
  function Elems(s: seq<string>): (r: set<string>)
    ensures forall x :: x in r <==> x in s
  {
    set x | x in s
  }

  /** A prefix one longer is the prefix and its next element. */
  lemma TakeStep<T>(s: seq<T>, i: nat)
    requires i < |s|
    ensures s[..i + 1] == s[..i] + [s[i]]
  {
  }

  /** Growing a prefix by one adds exactly its next element. */
  lemma PrefixElemsStep(s: seq<string>, i: nat)
    requires i < |s|
    ensures Elems(s[..i + 1]) == Elems(s[..i]) + {s[i]}
  {
    assert s[..i + 1] == s[..i] + [s[i]];
  }

  /** Appending one key adds exactly that key. */
  lemma AppendElems(s: seq<string>, x: string, k0: set<string>, k: set<string>, k': set<string>)
    requires k == k0 + Elems(s) && k' == k + {x}
    ensures k' == k0 + Elems(s + [x])
  {
  }

  /** The keys of a concatenation are the keys of its halves. */
  lemma ConcatElems(a: seq<string>, b: seq<string>, c: seq<string>)
    requires a + b == c
    ensures Elems(c) == Elems(a) + Elems(b)
  {
  }

  /** In a sequence without repeats, an element does not occur before its own position. */
  lemma DistinctNotBefore(s: seq<string>, i: nat)
    requires Distinct(s) && i < |s|
    ensures s[i] !in Elems(s[..i])
  {
  }

  /** A prefix of a sequence without repeats has none either. */
  lemma DistinctPrefix(s: seq<string>, i: nat)
    requires Distinct(s) && i <= |s|
    ensures Distinct(s[..i])
  {
  }

  /** The whole of an exact listing covers exactly the listed keys. */
  lemma ListsElems(s: seq<string>, ks: set<string>)
    requires Lists(s, ks)
    ensures Elems(s[..|s|]) == ks
  {
    assert s[..|s|] == s;
  }

  /** Taking keys out of a map one at a time is taking out their union. */
  lemma MinusStep<V>(m: map<string, V>, e: set<string>, x: string)
    ensures (m - e) - {x} == m - (e + {x})
  {
  }

  lemma MinusSets<V>(m: map<string, V>, a: set<string>, b: set<string>)
    ensures (m - a) - b == m - (a + b)
  {
  }

  /** The keys of `s` not in `drop`, in their order in `s`. */
  function Kept(s: seq<string>, drop: set<string>): (r: seq<string>)
    ensures forall k :: k in r <==> k in s && k !in drop
    ensures |r| <= |s|
  {
    if s == [] then []
    else if s[0] in drop then Kept(s[1..], drop)
    else [s[0]] + Kept(s[1..], drop)
  }

  /** Taking `x` out of what was kept is keeping without `x` as well. */
  lemma {:induction false} KeptWithout(s: seq<string>, drop: set<string>, x: string)
    ensures Without(Kept(s, drop), x) == Kept(s, drop + {x})
  {
    if s != [] {
      KeptWithout(s[1..], drop, x);
      if s[0] !in drop {
        assert Kept(s, drop) == [s[0]] + Kept(s[1..], drop);
        assert Kept(s, drop)[1..] == Kept(s[1..], drop);
      }
    }
  }

  /** Keeping nothing out keeps everything. */
  lemma {:induction false} KeptNothing(s: seq<string>)
    ensures Kept(s, {}) == s
  {
    if s != [] {
      KeptNothing(s[1..]);
    }
  }

  /** Filtering an exact listing lists exactly the remaining keys. */
  lemma {:induction false} KeptLists(s: seq<string>, ks: set<string>, drop: set<string>)
    requires Lists(s, ks)
    ensures Lists(Kept(s, drop), ks - drop)
  {
    if s != [] {
      assert Lists(s[1..], ks - {s[0]}) by {
        assert forall k :: k in s[1..] <==> k in s && k != s[0];
      }
      KeptLists(s[1..], ks - {s[0]}, drop);
      assert (ks - {s[0]}) - drop == (ks - drop) - {s[0]};
    }
  }

  /** Removing the next listed key extends the removed prefix by one. */
  lemma KeptStep(order: seq<string>, keys: seq<string>, i: nat)
    requires i < |keys|
    ensures Without(Kept(order, Elems(keys[..i])), keys[i]) == Kept(order, Elems(keys[..i + 1]))
  {
    PrefixElemsStep(keys, i);
    KeptWithout(order, Elems(keys[..i]), keys[i]);
  }
}
