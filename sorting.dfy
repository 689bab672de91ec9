/**
 * Python's `sorted(s, key=...)` on integer keys: a stable sort. Stability is
 * stated by tagging each element with its original position: the sorted
 * sequence is the projection of a permutation of the tagged sequence that is
 * strictly ordered by (key, position).
 */
module Sorting {

  predicate SortedBy<T>(s: seq<T>, key: T -> int) {
    forall i, j | 0 <= i < j < |s| :: key(s[i]) <= key(s[j])
  }

  /** Insert x after every trailing element whose key exceeds key(x). */
  function Insert<T>(s: seq<T>, x: T, key: T -> int): (r: seq<T>)
    ensures |r| == |s| + 1
    ensures multiset(r) == multiset(s) + multiset{x}
  {
    if s == [] || key(s[|s| - 1]) <= key(x) then s + [x]
    else
      assert s == s[..|s| - 1] + [s[|s| - 1]];
      Insert(s[..|s| - 1], x, key) + [s[|s| - 1]]
  }

  /** sorted(s, key=key), as an insertion sort that keeps equal keys in order. */
  function SortBy<T>(s: seq<T>, key: T -> int): (r: seq<T>)
    ensures multiset(r) == multiset(s)
  {
    if s == [] then []
    else
      assert s == s[..|s| - 1] + [s[|s| - 1]];
      Insert(SortBy(s[..|s| - 1], key), s[|s| - 1], key)
  }

  lemma {:induction false} InsertSorted<T>(s: seq<T>, x: T, key: T -> int)
    requires SortedBy(s, key)
    ensures SortedBy(Insert(s, x, key), key)
  {
    if s != [] && key(s[|s| - 1]) > key(x) {
      var init := s[..|s| - 1];
      InsertSorted(init, x, key);
      var last := s[|s| - 1];
      var r := Insert(init, x, key);
      forall e | e in multiset(r) ensures key(e) <= key(last) {
        if e != x {
          assert e in multiset(init);
          var k :| 0 <= k < |init| && init[k] == e;
          assert s[k] == e;
        }
      }
      var out := r + [last];
      assert Insert(s, x, key) == out;
      forall i, j | 0 <= i < j < |out| ensures key(out[i]) <= key(out[j]) {
        if j == |r| { assert r[i] in multiset(r); }
      }
    }
  }

  /** The result of sorted() is ordered by key and a permutation of its input. */
  lemma {:induction false} SortBySorted<T>(s: seq<T>, key: T -> int)
    ensures SortedBy(SortBy(s, key), key)
    ensures multiset(SortBy(s, key)) == multiset(s)
  {
    if s != [] {
      SortBySorted(s[..|s| - 1], key);
      InsertSorted(SortBy(s[..|s| - 1], key), s[|s| - 1], key);
    }
  }

  // ---------------------------------------------------------------------
  // Stability

  function Tag<T>(s: seq<T>): (t: seq<(T, int)>)
    ensures |t| == |s| && forall i | 0 <= i < |s| :: t[i] == (s[i], i)
  {
    seq(|s|, i requires 0 <= i < |s| => (s[i], i))
  }

  function Untag<T>(t: seq<(T, int)>): (s: seq<T>)
    ensures |s| == |t| && forall i | 0 <= i < |t| :: s[i] == t[i].0
  {
    seq(|t|, i requires 0 <= i < |t| => t[i].0)
  }

  function TagKey<T>(key: T -> int): ((T, int)) -> int {
    (p: (T, int)) => key(p.0)
  }

  /** a comes strictly before b in (key, position) order. */
  predicate Before<T>(a: (T, int), b: (T, int), key: T -> int) {
    key(a.0) < key(b.0) || (key(a.0) == key(b.0) && a.1 < b.1)
  }

  predicate StrictlyOrdered<T>(t: seq<(T, int)>, key: T -> int) {
    forall i, j | 0 <= i < j < |t| :: Before(t[i], t[j], key)
  }

  lemma {:induction false} InsertUntag<T>(t: seq<(T, int)>, x: (T, int), key: T -> int)
    ensures Untag(Insert(t, x, TagKey(key))) == Insert(Untag(t), x.0, key)
  {
    if t != [] && key(t[|t| - 1].0) > key(x.0) {
      InsertUntag(t[..|t| - 1], x, key);
      assert Untag(t[..|t| - 1]) == Untag(t)[..|t| - 1];
      assert Untag(Insert(t, x, TagKey(key)))
          == Untag(Insert(t[..|t| - 1], x, TagKey(key))) + [t[|t| - 1].0];
    } else {
      assert Untag(t + [x]) == Untag(t) + [x.0];
    }
  }

  lemma {:induction false} InsertStrict<T>(t: seq<(T, int)>, x: (T, int), key: T -> int)
    requires StrictlyOrdered(t, key)
    requires forall e | e in t :: e.1 < x.1
    ensures StrictlyOrdered(Insert(t, x, TagKey(key)), key)
  {
    if t == [] || key(t[|t| - 1].0) <= key(x.0) {
      var out := t + [x];
      forall i, j | 0 <= i < j < |out| ensures Before(out[i], out[j], key) {
        if j == |t| {
          assert t[i] in t;
          assert key(t[i].0) <= key(t[|t| - 1].0) || i == |t| - 1 by {
            if i < |t| - 1 { assert Before(t[i], t[|t| - 1], key); }
          }
        }
      }
    } else {
      var init := t[..|t| - 1];
      var last := t[|t| - 1];
      forall e | e in init ensures e.1 < x.1 { assert e in t; }
      InsertStrict(init, x, key);
      var r: seq<(T, int)> := Insert(init, x, TagKey(key));
      forall e | e in multiset(r) ensures Before(e, last, key) {
        if e != x {
          assert e in multiset(init);
          var k :| 0 <= k < |init| && init[k] == e;
          assert t[k] == e;
        }
      }
      var out := r + [last];
      assert Insert(t, x, TagKey(key)) == out;
      forall i, j | 0 <= i < j < |out| ensures Before(out[i], out[j], key) {
        if j == |r| { assert r[i] in multiset(r); }
      }
    }
  }

  lemma TagInit<T>(s: seq<T>)
    requires s != []
    ensures Tag(s) == Tag(s[..|s| - 1]) + [(s[|s| - 1], |s| - 1)]
  {
    assert Tag(s)[..|s| - 1] == Tag(s[..|s| - 1]);
  }

  /** Every tag in a sorted tagged sequence is a position of the original. */
  lemma TagsBelow<T>(s: seq<T>, key: T -> int)
    ensures forall e | e in SortBy(Tag(s), TagKey(key)) :: e.1 < |s|
  {
    forall e | e in SortBy(Tag(s), TagKey(key)) ensures e.1 < |s| {
      assert e in multiset(Tag(s));
      var k :| 0 <= k < |s| && Tag(s)[k] == e;
    }
  }

  lemma {:induction false} SortTagged<T>(s: seq<T>, key: T -> int)
    ensures StrictlyOrdered(SortBy(Tag(s), TagKey(key)), key)
    ensures Untag(SortBy(Tag(s), TagKey(key))) == SortBy(s, key)
  {
    if s != [] {
      var n := |s| - 1;
      var init := s[..n];
      TagInit(s);
      SortTagged(init, key);
      var t := SortBy(Tag(init), TagKey(key));
      TagsBelow(init, key);
      InsertStrict(t, (s[n], n), key);
      InsertUntag(t, (s[n], n), key);
      assert SortBy(Tag(s), TagKey(key)) == Insert(t, (s[n], n), TagKey(key));
    }
  }

  /**
   * sorted() is stable: its result is the projection of a rearrangement of
   * the (element, position) pairs that is strictly ordered by key and then
   * by original position.
   */
  lemma SortByStable<T>(s: seq<T>, key: T -> int)
    ensures var t := SortBy(Tag(s), TagKey(key));
            multiset(t) == multiset(Tag(s))
            && StrictlyOrdered(t, key)
            && Untag(t) == SortBy(s, key)
  {
    SortTagged(s, key);
  }

  function Reverse<T>(s: seq<T>): (r: seq<T>)
    ensures |r| == |s| && forall i | 0 <= i < |s| :: r[i] == s[|s| - 1 - i]
  {
    seq(|s|, i requires 0 <= i < |s| => s[|s| - 1 - i])
  }

  lemma {:induction false} ReverseMultiset<T>(s: seq<T>)
    ensures multiset(Reverse(s)) == multiset(s)
  {
    if s != [] {
      ReverseMultiset(s[1..]);
      assert Reverse(s) == Reverse(s[1..]) + [s[0]];
      assert s == [s[0]] + s[1..];
    }
  }

  // ---------------------------------------------------------------------
  // Distinctness survives a permutation

  predicate Distinct<T(==)>(s: seq<T>) {
    forall i, j | 0 <= i < j < |s| :: s[i] != s[j]
  }

  lemma {:induction false} DistinctOnce<T>(s: seq<T>, e: T)
    requires Distinct(s)
    ensures multiset(s)[e] <= 1
  {
    if s != [] {
      var init := s[..|s| - 1];
      assert s == init + [s[|s| - 1]];
      DistinctOnce(init, e);
      assert s[|s| - 1] == e ==> forall k | 0 <= k < |init| :: init[k] == s[k] != e;
    }
  }

  lemma TwiceCounted<T>(s: seq<T>, i: nat, j: nat)
    requires i < j < |s| && s[i] == s[j]
    ensures multiset(s)[s[i]] >= 2
  {
    assert s == s[..i] + [s[i]] + s[i + 1..j] + [s[j]] + s[j + 1..];
  }

  lemma PermutationDistinct<T>(a: seq<T>, b: seq<T>)
    requires multiset(a) == multiset(b) && Distinct(a)
    ensures Distinct(b)
  {
    forall i, j | 0 <= i < j < |b| ensures b[i] != b[j] {
      if b[i] == b[j] {
        TwiceCounted(b, i, j);
        DistinctOnce(a, b[i]);
      }
    }
  }

}
