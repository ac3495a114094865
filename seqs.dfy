/** Order-preserving selection from a sequence, the shape of Go's "append if" loops. */
module Seqs {

  /** `xs` is obtained from `ys` by deleting elements, keeping the order of the rest. */
  ghost predicate IsSubsequence<T>(xs: seq<T>, ys: seq<T>)
    decreases |ys|
  {
    if xs == [] then true
    else if ys == [] then false
    else
      || (xs[|xs| - 1] == ys[|ys| - 1] && IsSubsequence(xs[..|xs| - 1], ys[..|ys| - 1]))
      || IsSubsequence(xs, ys[..|ys| - 1])
  }

  /** The elements of `s` that `keep` accepts, in their original order. */
  function Filter<T>(s: seq<T>, keep: T -> bool): (r: seq<T>)
    ensures |r| <= |s|
    ensures forall i :: 0 <= i < |r| ==> r[i] in s && keep(r[i])
    ensures forall i :: 0 <= i < |s| && keep(s[i]) ==> s[i] in r
    decreases |s|
  {
    if s == [] then []
    else
      var init := s[..|s| - 1];
      Filter(init, keep) + (if keep(s[|s| - 1]) then [s[|s| - 1]] else [])
  }

  /** One step of a loop that appends `s[i]` when `keep` accepts it. */
  lemma FilterStep<T>(s: seq<T>, keep: T -> bool, i: nat)
    requires i < |s|
    ensures Filter(s[..i + 1], keep) == Filter(s[..i], keep) + (if keep(s[i]) then [s[i]] else [])
  {
    assert s[..i + 1][..i] == s[..i];
  }

  /** `ys` and `xs` have the same length and `rel` holds of their elements position by position. */
  ghost predicate Pointwise<T, U>(xs: seq<T>, ys: seq<U>, rel: (T, U) -> bool)
  {
    |xs| == |ys| && forall j :: 0 <= j < |xs| ==> rel(xs[j], ys[j])
  }

  lemma PointwiseSnoc<T, U>(xs: seq<T>, ys: seq<U>, x: T, y: U, rel: (T, U) -> bool)
    requires Pointwise(xs, ys, rel) && rel(x, y)
    ensures Pointwise(xs + [x], ys + [y], rel)
  {
    forall j | 0 <= j < |xs|
      ensures rel((xs + [x])[j], (ys + [y])[j])
    {
      assert (xs + [x])[j] == xs[j] && (ys + [y])[j] == ys[j];
    }
  }

  lemma {:induction false} FilterIsSubsequence<T>(s: seq<T>, keep: T -> bool)
    ensures IsSubsequence(Filter(s, keep), s)
    decreases |s|
  {
    if s != [] {
      var init := s[..|s| - 1];
      FilterIsSubsequence(init, keep);
      var r := Filter(s, keep);
      if keep(s[|s| - 1]) {
        assert r[..|r| - 1] == Filter(init, keep);
      } else if r != [] {
        assert r == Filter(init, keep);
      }
    }
  }

  /** Filtering a sequence whose every element is accepted changes nothing. */
  lemma {:induction false} FilterKeepsAll<T>(s: seq<T>, keep: T -> bool)
    requires forall i :: 0 <= i < |s| ==> keep(s[i])
    ensures Filter(s, keep) == s
    decreases |s|
  {
    if s != [] {
      var init, last := s[..|s| - 1], s[|s| - 1];
      FilterKeepsAll(init, keep);
      assert Filter(s, keep) == init + [last];
      assert init + [last] == s;
    }
  }

  /** Filtering distributes over concatenation. */
  lemma {:induction false} FilterConcat<T>(a: seq<T>, b: seq<T>, keep: T -> bool)
    ensures Filter(a + b, keep) == Filter(a, keep) + Filter(b, keep)
    decreases |b|
  {
    if b == [] {
      assert a + b == a;
    } else {
      var b' := b[..|b| - 1];
      assert (a + b)[..|a + b| - 1] == a + b';
      FilterConcat(a, b', keep);
    }
  }

  // ---------------------------------------------------------------------------
  // Keeping the first element of each key
  // ---------------------------------------------------------------------------

  /** The keys of the elements of `s`. */
  function KeySet<T, K(==)>(s: seq<T>, key: T -> K): set<K>
    decreases |s|
  {
    if s == [] then {} else KeySet(s[..|s| - 1], key) + {key(s[|s| - 1])}
  }

  /** No key occurs twice in `s`. */
  predicate DistinctKeys<T, K(==)>(s: seq<T>, key: T -> K)
    decreases |s|
  {
    s == [] || (DistinctKeys(s[..|s| - 1], key) && key(s[|s| - 1]) !in KeySet(s[..|s| - 1], key))
  }

  lemma KeySetSnoc<T, K>(a: seq<T>, x: T, key: T -> K)
    ensures KeySet(a + [x], key) == KeySet(a, key) + {key(x)}
    ensures DistinctKeys(a + [x], key) <==> DistinctKeys(a, key) && key(x) !in KeySet(a, key)
  {
    assert (a + [x])[..|a|] == a;
  }

  /** The key of every element is among the keys. */
  lemma {:induction false} KeyInKeySet<T, K>(s: seq<T>, key: T -> K, i: nat)
    requires i < |s|
    ensures key(s[i]) in KeySet(s, key)
    decreases |s|
  {
    if i < |s| - 1 {
      KeyInKeySet(s[..|s| - 1], key, i);
    }
  }

  /** Every key is the key of some element. */
  lemma {:induction false} KeySetWitness<T, K>(s: seq<T>, key: T -> K, k: K) returns (i: nat)
    requires k in KeySet(s, key)
    ensures i < |s| && key(s[i]) == k
    decreases |s|
  {
    if key(s[|s| - 1]) == k {
      i := |s| - 1;
    } else {
      i := KeySetWitness(s[..|s| - 1], key, k);
    }
  }

  lemma {:induction false} KeySetConcat<T, K>(a: seq<T>, b: seq<T>, key: T -> K)
    ensures KeySet(a + b, key) == KeySet(a, key) + KeySet(b, key)
    decreases |b|
  {
    if b == [] {
      assert a + b == a;
    } else {
      var b' := b[..|b| - 1];
      assert (a + b)[..|a + b| - 1] == a + b';
      KeySetConcat(a, b', key);
    }
  }

  /** Distinct keys, read pairwise: no two positions share a key. */
  lemma {:induction false} DistinctKeysPairwise<T, K>(s: seq<T>, key: T -> K, i: nat, j: nat)
    requires DistinctKeys(s, key) && i < j < |s|
    ensures key(s[i]) != key(s[j])
    decreases |s|
  {
    var init := s[..|s| - 1];
    if j < |s| - 1 {
      DistinctKeysPairwise(init, key, i, j);
    } else {
      KeyInKeySet(init, key, i);
    }
  }

  /** Keys that differ pairwise are distinct keys. */
  lemma {:induction false} PairwiseDistinctKeys<T, K>(s: seq<T>, key: T -> K)
    requires forall i, j :: 0 <= i < j < |s| ==> key(s[i]) != key(s[j])
    ensures DistinctKeys(s, key)
    decreases |s|
  {
    if s != [] {
      var init := s[..|s| - 1];
      PairwiseDistinctKeys(init, key);
      if key(s[|s| - 1]) in KeySet(init, key) {
        var i := KeySetWitness(init, key, key(s[|s| - 1]));
        assert false;
      }
    }
  }

  /**
   * The elements of `s` whose key is neither in `seen` nor the key of an
   * earlier element of `s`, in their original order.
   */
  function Unseen<T, K(==)>(s: seq<T>, key: T -> K, seen: set<K>): (r: seq<T>)
    ensures |r| <= |s|
    ensures DistinctKeys(r, key)
    ensures KeySet(r, key) == KeySet(s, key) - seen
    decreases |s|
  {
    if s == [] then []
    else
      var init, last := s[..|s| - 1], s[|s| - 1];
      var r0 := Unseen(init, key, seen);
      if key(last) in seen + KeySet(init, key) then r0
      else
        KeySetSnoc(r0, last, key);
        r0 + [last]
  }

  /** One step of a pass over `s` that keeps each key's first element: a new key keeps its element. */
  lemma UnseenStepNew<T, K>(s: seq<T>, key: T -> K, i: nat)
    requires i < |s| && key(s[i]) !in KeySet(s[..i], key)
    ensures KeySet(s[..i + 1], key) == KeySet(s[..i], key) + {key(s[i])}
    ensures Unseen(s[..i + 1], key, {}) == Unseen(s[..i], key, {}) + [s[i]]
  {
    assert s[..i + 1][..i] == s[..i];
  }

  /** A key seen before drops its element. */
  lemma UnseenStepSeen<T, K>(s: seq<T>, key: T -> K, i: nat)
    requires i < |s| && key(s[i]) in KeySet(s[..i], key)
    ensures KeySet(s[..i + 1], key) == KeySet(s[..i], key)
    ensures Unseen(s[..i + 1], key, {}) == Unseen(s[..i], key, {})
  {
    assert s[..i + 1][..i] == s[..i];
  }

  /** Dropping repeats from a concatenation: the first part's survivors, then what the second adds. */
  lemma {:induction false} UnseenConcat<T, K>(a: seq<T>, b: seq<T>, key: T -> K, seen: set<K>)
    ensures Unseen(a + b, key, seen) == Unseen(a, key, seen) + Unseen(b, key, seen + KeySet(a, key))
    decreases |b|
  {
    if b == [] {
      assert a + b == a;
    } else {
      var b' := b[..|b| - 1];
      assert (a + b)[..|a + b| - 1] == a + b';
      UnseenConcat(a, b', key, seen);
      KeySetConcat(a, b', key);
    }
  }

  lemma {:induction false} UnseenIsSubsequence<T, K>(s: seq<T>, key: T -> K, seen: set<K>)
    ensures IsSubsequence(Unseen(s, key, seen), s)
    decreases |s|
  {
    if s != [] {
      var init := s[..|s| - 1];
      UnseenIsSubsequence(init, key, seen);
      var r := Unseen(s, key, seen);
      if r != Unseen(init, key, seen) {
        assert r[..|r| - 1] == Unseen(init, key, seen);
      }
    }
  }

  /** A sequence with distinct keys loses nothing. */
  lemma {:induction false} UnseenOfDistinct<T, K>(s: seq<T>, key: T -> K)
    requires DistinctKeys(s, key)
    ensures Unseen(s, key, {}) == s
    decreases |s|
  {
    if s != [] {
      UnseenOfDistinct(s[..|s| - 1], key);
    }
  }

  /** An element whose key no earlier element has is kept. */
  lemma {:induction false} UnseenKeepsFirsts<T, K>(s: seq<T>, key: T -> K, i: nat)
    requires i < |s| && key(s[i]) !in KeySet(s[..i], key)
    ensures s[i] in Unseen(s, key, {})
    decreases |s|
  {
    var init := s[..|s| - 1];
    if i < |s| - 1 {
      assert init[..i] == s[..i];
      UnseenKeepsFirsts(init, key, i);
    } else {
      assert init == s[..i];
    }
  }

  /** Every kept element is the first of its key. */
  lemma {:induction false} UnseenKeepsOnlyFirsts<T, K>(s: seq<T>, key: T -> K, k: nat) returns (i: nat)
    requires k < |Unseen(s, key, {})|
    ensures i < |s| && Unseen(s, key, {})[k] == s[i] && key(s[i]) !in KeySet(s[..i], key)
    decreases |s|
  {
    var init := s[..|s| - 1];
    var r0 := Unseen(init, key, {});
    if k < |r0| {
      i := UnseenKeepsOnlyFirsts(init, key, k);
      assert init[..i] == s[..i];
    } else {
      i := |s| - 1;
      assert init == s[..i];
    }
  }

  lemma {:induction false} KeySetOfFilter<T, K>(s: seq<T>, keep: T -> bool, key: T -> K)
    ensures KeySet(Filter(s, keep), key) <= KeySet(s, key)
    decreases |s|
  {
    if s != [] {
      var init, last := s[..|s| - 1], s[|s| - 1];
      KeySetOfFilter(init, keep, key);
      assert Filter(s, keep) == Filter(init, keep) + (if keep(last) then [last] else []);
      if keep(last) {
        KeySetSnoc(Filter(init, keep), last, key);
      } else {
        assert Filter(init, keep) + [] == Filter(init, keep);
      }
    }
  }

  /** Filtering keeps keys distinct. */
  lemma {:induction false} FilterKeepsDistinctKeys<T, K>(s: seq<T>, keep: T -> bool, key: T -> K)
    requires DistinctKeys(s, key)
    ensures DistinctKeys(Filter(s, keep), key)
    decreases |s|
  {
    if s != [] {
      var init, last := s[..|s| - 1], s[|s| - 1];
      FilterKeepsDistinctKeys(init, keep, key);
      KeySetOfFilter(init, keep, key);
      assert Filter(s, keep) == Filter(init, keep) + (if keep(last) then [last] else []);
      if keep(last) {
        KeySetSnoc(Filter(init, keep), last, key);
      } else {
        assert Filter(init, keep) + [] == Filter(init, keep);
      }
    }
  }

  // ---------------------------------------------------------------------------
  // The first non-empty result
  // ---------------------------------------------------------------------------

  /** `f` of the first element for which it is non-empty, or empty when there is none. */
  function FirstNonEmpty<T, U>(xs: seq<T>, f: T -> seq<U>): seq<U>
    decreases |xs|
  {
    if xs == [] then []
    else if f(xs[0]) != [] then f(xs[0])
    else FirstNonEmpty(xs[1..], f)
  }

  /**
   * The result is empty exactly when `f` is empty on every element;
   * otherwise it is `f` of the first element where `f` is non-empty.
   */
  lemma {:induction false} FirstNonEmptyIsFirst<T, U>(xs: seq<T>, f: T -> seq<U>)
    ensures FirstNonEmpty(xs, f) == [] <==> forall i :: 0 <= i < |xs| ==> f(xs[i]) == []
    ensures FirstNonEmpty(xs, f) != [] ==>
      exists i :: 0 <= i < |xs| && FirstNonEmpty(xs, f) == f(xs[i]) && forall k :: 0 <= k < i ==> f(xs[k]) == []
    decreases |xs|
  {
    if xs != [] && f(xs[0]) == [] {
      var rest := xs[1..];
      FirstNonEmptyIsFirst(rest, f);
      assert forall i :: 1 <= i < |xs| ==> xs[i] == rest[i - 1];
      if FirstNonEmpty(rest, f) != [] {
        var j :| 0 <= j < |rest| && FirstNonEmpty(rest, f) == f(rest[j]) && forall k :: 0 <= k < j ==> f(rest[k]) == [];
        assert xs[j + 1] == rest[j];
        forall k | 0 <= k < j + 1
          ensures f(xs[k]) == []
        {
          if k > 0 {
            assert xs[k] == rest[k - 1];
          }
        }
      }
    }
  }
}
