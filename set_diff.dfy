/**
 * `{key(x) for x in curr} - {key(p) for p in prev}`, iterated: the elements
 * of curr whose key prev does not hold, one per key. Python iterates a set
 * in an order of its own; the model takes each key at its first occurrence
 * in curr.
 */
module SetDiff {
  import opened Sorting

  /** The elements of s whose key is not in seen, each key once, at its first occurrence. */
  function Unseen<T(==), K(==)>(s: seq<T>, seen: set<K>, key: T -> K): seq<T>
    decreases |s|
  {
    if s == [] then []
    else if key(s[0]) in seen then Unseen(s[1..], seen, key)
    else [s[0]] + Unseen(s[1..], seen + {key(s[0])}, key)
  }

  /** The keys of prev. */
  function KeySet<T(==), K(==)>(prev: seq<T>, key: T -> K): set<K> {
    set p | p in prev :: key(p)
  }

  /** `curr_set - prev_set`, before sorting. */
  function Diff<T(==), K(==)>(prev: seq<T>, curr: seq<T>, key: T -> K): seq<T> {
    Unseen(curr, KeySet(prev, key), key)
  }

  predicate DistinctBy<T(==), K(==)>(s: seq<T>, key: T -> K) {
    forall i, j | 0 <= i < j < |s| :: key(s[i]) != key(s[j])
  }

  lemma {:induction false} UnseenFrom<T, K>(s: seq<T>, seen: set<K>, key: T -> K)
    ensures forall x | x in Unseen(s, seen, key) :: x in s && key(x) !in seen
    decreases |s|
  {
    if s != [] {
      if key(s[0]) in seen {
        UnseenFrom(s[1..], seen, key);
      } else {
        UnseenFrom(s[1..], seen + {key(s[0])}, key);
      }
    }
  }

  lemma {:induction false} UnseenCovers<T, K>(s: seq<T>, seen: set<K>, key: T -> K)
    ensures forall c | c in s && key(c) !in seen :: exists x | x in Unseen(s, seen, key) :: key(x) == key(c)
    decreases |s|
  {
    if s != [] {
      var c0 := s[0];
      if key(c0) in seen {
        UnseenCovers(s[1..], seen, key);
        forall c | c in s && key(c) !in seen
          ensures exists x | x in Unseen(s, seen, key) :: key(x) == key(c)
        {
          assert c in s[1..];
        }
      } else {
        var seen' := seen + {key(c0)};
        var rest := Unseen(s[1..], seen', key);
        UnseenCovers(s[1..], seen', key);
        assert Unseen(s, seen, key) == [c0] + rest;
        forall c | c in s && key(c) !in seen
          ensures exists x | x in Unseen(s, seen, key) :: key(x) == key(c)
        {
          if key(c) == key(c0) {
            assert c0 in Unseen(s, seen, key);
          } else {
            assert c in s[1..];
            var x :| x in rest && key(x) == key(c);
            assert x in Unseen(s, seen, key);
          }
        }
      }
    }
  }

  lemma {:induction false} UnseenDistinct<T, K>(s: seq<T>, seen: set<K>, key: T -> K)
    ensures DistinctBy(Unseen(s, seen, key), key)
    decreases |s|
  {
    if s != [] {
      var c0 := s[0];
      if key(c0) in seen {
        UnseenDistinct(s[1..], seen, key);
      } else {
        var seen' := seen + {key(c0)};
        var rest := Unseen(s[1..], seen', key);
        UnseenDistinct(s[1..], seen', key);
        UnseenFrom(s[1..], seen', key);
        var r := [c0] + rest;
        assert Unseen(s, seen, key) == r;
        forall i, j | 0 <= i < j < |r| ensures key(r[i]) != key(r[j]) {
          if i == 0 { assert r[j] in rest; }
          else { assert r[i] == rest[i - 1] && r[j] == rest[j - 1]; }
        }
      }
    }
  }

  /**
   * The difference holds the elements of curr whose key prev lacks, one per
   * key, and every element of curr is accounted for by prev or by it.
   */
  lemma DiffSpec<T, K>(prev: seq<T>, curr: seq<T>, key: T -> K)
    ensures forall x | x in Diff(prev, curr, key) :: x in curr && forall p | p in prev :: key(p) != key(x)
    ensures forall c | c in curr ::
              (exists p | p in prev :: key(p) == key(c))
              || (exists x | x in Diff(prev, curr, key) :: key(x) == key(c))
    ensures DistinctBy(Diff(prev, curr, key), key)
  {
    var seen := KeySet(prev, key);
    UnseenFrom(curr, seen, key);
    UnseenCovers(curr, seen, key);
    UnseenDistinct(curr, seen, key);
    forall x | x in Diff(prev, curr, key) ensures forall p | p in prev :: key(p) != key(x) {
      assert key(x) !in seen;
    }
  }

  lemma DistinctByDistinct<T, K>(s: seq<T>, key: T -> K)
    requires DistinctBy(s, key)
    ensures Distinct(s)
  {
    forall i, j | 0 <= i < j < |s| ensures s[i] != s[j] {
      assert key(s[i]) != key(s[j]);
    }
  }

  /** Rearranging a sequence keeps its keys distinct. */
  lemma PermutationDistinctBy<T, K>(a: seq<T>, b: seq<T>, key: T -> K)
    requires multiset(a) == multiset(b) && DistinctBy(a, key)
    ensures DistinctBy(b, key)
  {
    DistinctByDistinct(a, key);
    PermutationDistinct(a, b);
    forall i, j | 0 <= i < j < |b| ensures key(b[i]) != key(b[j]) {
      assert b[i] in multiset(a) && b[j] in multiset(a);
      var p :| 0 <= p < |a| && a[p] == b[i];
      var q :| 0 <= q < |a| && a[q] == b[j];
      assert p != q;
      assert p < q ==> key(a[p]) != key(a[q]);
      assert q < p ==> key(a[q]) != key(a[p]);
    }
  }

  /** Nothing is unseen in a sequence whose every key has been seen. */
  lemma {:induction false} UnseenAllSeen<T, K>(s: seq<T>, seen: set<K>, key: T -> K)
    requires forall i | 0 <= i < |s| :: key(s[i]) in seen
    ensures Unseen(s, seen, key) == []
    decreases |s|
  {
    if s != [] {
      assert forall i | 0 <= i < |s| - 1 :: s[1..][i] == s[i + 1];
      UnseenAllSeen(s[1..], seen, key);
    }
  }

  /** A sequence has nothing its own keys lack. */
  lemma DiffSelf<T, K>(s: seq<T>, key: T -> K)
    ensures Diff(s, s, key) == []
  {
    forall i | 0 <= i < |s| ensures key(s[i]) in KeySet(s, key) {
      assert s[i] in s;
    }
    UnseenAllSeen(s, KeySet(s, key), key);
  }

}
