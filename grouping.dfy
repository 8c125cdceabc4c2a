/**
  LINQ `GroupBy` over a sequence: groups in order of the first occurrence
  of their key, each group holding its members in sequence order. The
  render pass groups by texture reference; nothing here depends on what
  the key is.
*/
module Grouping {
  import opened Seqs

  /** The distinct keys of `xs`, in order of first occurrence. */
  function Keys<T, K(==)>(xs: seq<T>, key: T -> K): seq<K>
  {
    if xs == [] then []
    else
      var ks := Keys(xs[..|xs| - 1], key);
      var k := key(xs[|xs| - 1]);
      if k in ks then ks else ks + [k]
  }

  /** The elements of `xs` whose key is `k`, in sequence order. */
  function Members<T, K(==)>(xs: seq<T>, key: T -> K, k: K): (r: seq<T>)
    ensures |r| <= |xs|
    ensures forall i :: 0 <= i < |r| ==> key(r[i]) == k
  {
    if xs == [] then []
    else
      var x := xs[|xs| - 1];
      Members(xs[..|xs| - 1], key, k) + (if key(x) == k then [x] else [])
  }

  /** One group per key of `ks`, in the order of `ks`. */
  function MembersOf<T, K(==)>(xs: seq<T>, key: T -> K, ks: seq<K>): (r: seq<seq<T>>)
    ensures |r| == |ks|
    ensures forall g :: 0 <= g < |ks| ==> r[g] == Members(xs, key, ks[g])
  {
    if ks == [] then []
    else MembersOf(xs, key, ks[..|ks| - 1]) + [Members(xs, key, ks[|ks| - 1])]
  }

  /** `xs.GroupBy(key)`. */
  function GroupBy<T, K(==)>(xs: seq<T>, key: T -> K): seq<seq<T>>
  {
    MembersOf(xs, key, Keys(xs, key))
  }

  /** The groups laid end to end. */
  function Flatten<T>(ss: seq<seq<T>>): seq<T>
  {
    if ss == [] then [] else Flatten(ss[..|ss| - 1]) + ss[|ss| - 1]
  }

  ghost predicate Distinct<K>(ks: seq<K>)
  {
    forall i, j :: 0 <= i < j < |ks| ==> ks[i] != ks[j]
  }

  /** A key is listed exactly when some element carries it. */
  lemma {:induction false} KeysIffOccurs<T, K>(xs: seq<T>, key: T -> K, k: K)
    ensures k in Keys(xs, key) <==> exists i :: 0 <= i < |xs| && key(xs[i]) == k
  {
    if xs != [] {
      var p := xs[..|xs| - 1];
      KeysIffOccurs(p, key, k);
      if k in Keys(p, key) {
        var i :| 0 <= i < |p| && key(p[i]) == k;
        assert xs[i] == p[i];
      }
      if exists i :: 0 <= i < |xs| && key(xs[i]) == k {
        var i :| 0 <= i < |xs| && key(xs[i]) == k;
        if i < |p| {
          assert p[i] == xs[i];
        }
      }
    }
  }

  /** The set of keys the elements carry. */
  ghost function KeySet<T, K>(xs: seq<T>, key: T -> K): set<K>
  {
    set i | 0 <= i < |xs| :: key(xs[i])
  }

  /** There are as many groups as distinct keys. */
  lemma {:induction false} KeysCountDistinct<T, K>(xs: seq<T>, key: T -> K)
    ensures |Keys(xs, key)| == |KeySet(xs, key)|
  {
    if xs != [] {
      var p := xs[..|xs| - 1];
      var k := key(xs[|xs| - 1]);
      KeysCountDistinct(p, key);
      KeysIffOccurs(p, key, k);
      forall k' | k' in KeySet(xs, key)
        ensures k' in KeySet(p, key) + {k}
      {
        var i :| 0 <= i < |xs| && key(xs[i]) == k';
        if i < |p| {
          assert p[i] == xs[i];
        }
      }
      forall k' | k' in KeySet(p, key)
        ensures k' in KeySet(xs, key)
      {
        var i :| 0 <= i < |p| && key(p[i]) == k';
        assert xs[i] == p[i];
      }
      assert KeySet(xs, key) == KeySet(p, key) + {k};
      if k in Keys(p, key) {
        var i :| 0 <= i < |p| && key(p[i]) == k;
        assert k in KeySet(p, key);
        assert KeySet(xs, key) == KeySet(p, key);
      } else {
        assert forall i :: 0 <= i < |p| ==> key(p[i]) != k;
        assert k !in KeySet(p, key);
        assert |KeySet(xs, key)| == |KeySet(p, key)| + 1;
      }
    }
  }

  /** No key is listed twice: distinct groups have distinct keys. */
  lemma {:induction false} KeysDistinct<T, K>(xs: seq<T>, key: T -> K)
    ensures Distinct(Keys(xs, key))
  {
    if xs != [] {
      KeysDistinct(xs[..|xs| - 1], key);
    }
  }

  /** A key has no members exactly when it is not listed. */
  lemma {:induction false} MembersEmptyIffAbsent<T, K>(xs: seq<T>, key: T -> K, k: K)
    ensures Members(xs, key, k) == [] <==> k !in Keys(xs, key)
  {
    if xs != [] {
      MembersEmptyIffAbsent(xs[..|xs| - 1], key, k);
    }
  }

  /** An element lies in the group of `k` exactly when it is in `xs` with key `k`. */
  lemma {:induction false} MembersIff<T, K>(xs: seq<T>, key: T -> K, k: K, x: T)
    ensures x in Members(xs, key, k) <==> x in xs && key(x) == k
  {
    if xs != [] {
      var p := xs[..|xs| - 1];
      MembersIff(p, key, k, x);
      assert xs == p + [xs[|xs| - 1]];
    }
  }

  /** Grouping keeps sequence order: the members of a concatenation are concatenated. */
  lemma {:induction false} MembersAppend<T, K>(a: seq<T>, b: seq<T>, key: T -> K, k: K)
    ensures Members(a + b, key, k) == Members(a, key, k) + Members(b, key, k)
  {
    if b != [] {
      var b' := b[..|b| - 1];
      MembersAppend(a, b', key, k);
      assert (a + b)[..|a + b| - 1] == a + b';
    } else {
      assert a + b == a;
    }
  }

  /** Every group is non-empty. */
  lemma GroupsNonEmpty<T, K>(xs: seq<T>, key: T -> K, g: int)
    requires 0 <= g < |Keys(xs, key)|
    ensures |GroupBy(xs, key)[g]| > 0
  {
    MembersEmptyIffAbsent(xs, key, Keys(xs, key)[g]);
  }

  /**
    Each element lies in exactly one group: the one whose key is its own.
  */
  lemma ExactlyOneGroup<T, K>(xs: seq<T>, key: T -> K, n: int)
    requires 0 <= n < |xs|
    ensures exists g :: 0 <= g < |Keys(xs, key)| && Keys(xs, key)[g] == key(xs[n]) &&
                        xs[n] in GroupBy(xs, key)[g]
    ensures forall g :: 0 <= g < |Keys(xs, key)| && xs[n] in GroupBy(xs, key)[g] ==>
                        Keys(xs, key)[g] == key(xs[n])
  {
    var ks := Keys(xs, key);
    KeysIffOccurs(xs, key, key(xs[n]));
    var g :| 0 <= g < |ks| && ks[g] == key(xs[n]);
    MembersIff(xs, key, ks[g], xs[n]);
    forall g' | 0 <= g' < |ks| && xs[n] in GroupBy(xs, key)[g']
      ensures ks[g'] == key(xs[n])
    {
      MembersIff(xs, key, ks[g'], xs[n]);
    }
  }

  /**
    Keys come in order of first occurrence: every element with a later key
    is preceded by an element with each earlier key.
  */
  lemma {:induction false} KeysInFirstOccurrenceOrder<T, K>(xs: seq<T>, key: T -> K,
                                                              i: int, j: int, n: int)
    requires 0 <= i < j < |Keys(xs, key)|
    requires 0 <= n < |xs| && key(xs[n]) == Keys(xs, key)[j]
    ensures exists m :: 0 <= m < n && key(xs[m]) == Keys(xs, key)[i]
  {
    var p := xs[..|xs| - 1];
    var ks := Keys(p, key);
    var k := key(xs[|xs| - 1]);
    if n < |p| {
      assert key(p[n]) == key(xs[n]);
      KeysIffOccurs(p, key, key(p[n]));
      assert j < |ks|;
      KeysInFirstOccurrenceOrder(p, key, i, j, n);
      var m :| 0 <= m < n && key(p[m]) == ks[i];
      assert xs[m] == p[m];
    } else {
      assert i < |ks| by {
        if k !in ks {
          assert j == |ks|;
        }
      }
      KeysIffOccurs(p, key, ks[i]);
      var m :| 0 <= m < |p| && key(p[m]) == ks[i];
      assert xs[m] == p[m];
    }
  }

  lemma FlattenSnoc<T>(ss: seq<seq<T>>, s: seq<T>)
    ensures Flatten(ss + [s]) == Flatten(ss) + s
  {
    assert (ss + [s])[..|ss|] == ss;
  }

  /** Appending one element extends the group of its key by it and leaves the others. */
  lemma MembersSnoc<T, K>(p: seq<T>, x: T, key: T -> K, k: K)
    ensures Members(p + [x], key, k) == Members(p, key, k) + (if key(x) == k then [x] else [])
  {
    ConcatPrefix(p, [x]);
    ConcatEmpty(p);
  }

  lemma MembersOfLast<T, K>(xs: seq<T>, key: T -> K, ks: seq<K>)
    requires ks != []
    ensures MembersOf(xs, key, ks) == MembersOf(xs, key, ks[..|ks| - 1]) + [Members(xs, key, ks[|ks| - 1])]
  {
  }

  lemma DistinctSnoc<K>(ks: seq<K>)
    requires Distinct(ks) && ks != []
    ensures Distinct(ks[..|ks| - 1]) && ks[|ks| - 1] !in ks[..|ks| - 1]
    ensures forall k :: k in ks <==> k in ks[..|ks| - 1] || k == ks[|ks| - 1]
  {
    LastSplit(ks);
  }

  /** Appending one element to `xs` adds it to the group of its key, if listed. */
  lemma {:induction false} MembersOfSnoc<T, K>(p: seq<T>, x: T, key: T -> K, ks: seq<K>)
    requires Distinct(ks)
    ensures multiset(Flatten(MembersOf(p + [x], key, ks)))
         == multiset(Flatten(MembersOf(p, key, ks))) + (if key(x) in ks then multiset{x} else multiset{})
  {
    if ks != [] {
      var ks' := ks[..|ks| - 1];
      var k' := ks[|ks| - 1];
      DistinctSnoc(ks);
      MembersOfSnoc(p, x, key, ks');
      MembersOfLast(p + [x], key, ks);
      MembersOfLast(p, key, ks);
      FlattenSnoc(MembersOf(p + [x], key, ks'), Members(p + [x], key, k'));
      FlattenSnoc(MembersOf(p, key, ks'), Members(p, key, k'));
      MembersSnoc(p, x, key, k');
    }
  }

  /** The groups partition `xs`: laid end to end they are a permutation of it. */
  lemma {:induction false} GroupsPartition<T, K>(xs: seq<T>, key: T -> K)
    ensures multiset(Flatten(GroupBy(xs, key))) == multiset(xs)
    ensures |Flatten(GroupBy(xs, key))| == |xs|
  {
    if xs != [] {
      var p := xs[..|xs| - 1];
      var x := xs[|xs| - 1];
      var ks := Keys(p, key);
      assert xs == p + [x];
      GroupsPartition(p, key);
      KeysDistinct(p, key);
      MembersOfSnoc(p, x, key, ks);
      if key(x) !in ks {
        MembersEmptyIffAbsent(p, key, key(x));
        assert Members(xs, key, key(x)) == [x];
        assert (ks + [key(x)])[..|ks|] == ks;
        FlattenSnoc(MembersOf(xs, key, ks), [x]);
      }
    }
    assert |multiset(Flatten(GroupBy(xs, key)))| == |Flatten(GroupBy(xs, key))|;
  }
}
