/**
 * Python dicts as ordered association lists: insertion order is kept, a key
 * that is written again keeps its place and takes the new value.
 */
module OrderedDict {
  import opened Wrappers

  type ODict<K, V> = seq<(K, V)>

  function Keys<K, V>(d: ODict<K, V>): (ks: seq<K>)
    ensures |ks| == |d| && forall i | 0 <= i < |d| :: ks[i] == d[i].0
  {
    seq(|d|, i requires 0 <= i < |d| => d[i].0)
  }

  /** d.values(), in insertion order. */
  function Values<K, V>(d: ODict<K, V>): (vs: seq<V>)
    ensures |vs| == |d| && forall i | 0 <= i < |d| :: vs[i] == d[i].1
  {
    seq(|d|, i requires 0 <= i < |d| => d[i].1)
  }

  predicate UniqueKeys<K(==), V>(d: ODict<K, V>) {
    forall i, j | 0 <= i < j < |d| :: d[i].0 != d[j].0
  }

  /** The position of key k, or |d| when k is absent. */
  function IndexOf<K(==), V>(d: ODict<K, V>, k: K): (i: nat)
    ensures i <= |d|
    ensures i < |d| ==> d[i].0 == k
    ensures forall j | 0 <= j < i :: d[j].0 != k
  {
    if d == [] then 0
    else if d[0].0 == k then 0
    else 1 + IndexOf(d[1..], k)
  }

  /** d.get(k). */
  function Get<K(==), V>(d: ODict<K, V>, k: K): Option<V> {
    var i := IndexOf(d, k);
    if i < |d| then Some(d[i].1) else None
  }

  /** d[k] = v. */
  function Put<K(==), V>(d: ODict<K, V>, k: K, v: V): ODict<K, V> {
    var i := IndexOf(d, k);
    if i < |d| then d[i := (k, v)] else d + [(k, v)]
  }

  /** dict(pairs), or a dict comprehension over pairs: later pairs win. */
  function FromPairs<K(==), V>(ps: seq<(K, V)>): ODict<K, V> {
    if ps == [] then [] else Put(FromPairs(ps[..|ps| - 1]), ps[|ps| - 1].0, ps[|ps| - 1].1)
  }

  /** The value of the last pair with key k. */
  function LastValue<K(==), V>(ps: seq<(K, V)>, k: K): Option<V> {
    if ps == [] then None
    else if ps[|ps| - 1].0 == k then Some(ps[|ps| - 1].1)
    else LastValue(ps[..|ps| - 1], k)
  }

  /** The keys in order of first appearance, each once. */
  function Dedup<K(==)>(ks: seq<K>): seq<K> {
    if ks == [] then []
    else
      var r := Dedup(ks[..|ks| - 1]);
      if ks[|ks| - 1] in r then r else r + [ks[|ks| - 1]]
  }

  lemma GetPresent<K, V>(d: ODict<K, V>, k: K)
    ensures Get(d, k).Some? <==> k in Keys(d)
  {
    if k in Keys(d) {
      var j :| 0 <= j < |d| && Keys(d)[j] == k;
      assert IndexOf(d, k) <= j;
    }
  }

  lemma PutGet<K, V>(d: ODict<K, V>, k: K, v: V, k': K)
    ensures Get(Put(d, k, v), k') == if k' == k then Some(v) else Get(d, k')
  {
    var i := IndexOf(d, k);
    var d' := Put(d, k, v);
    var i' := IndexOf(d', k');
    if k' == k {
      assert d'[i] == (k, v);
      assert IndexOf(d', k') <= i;
    } else {
      var j := IndexOf(d, k');
      assert j < |d| ==> d'[j] == d[j];
      if j < |d| { assert i' <= j; }
      assert i' < |d| ==> d'[i'] == d[i'];
    }
  }

  lemma PutKeys<K, V>(d: ODict<K, V>, k: K, v: V)
    ensures Keys(Put(d, k, v)) == if k in Keys(d) then Keys(d) else Keys(d) + [k]
  {
    var i := IndexOf(d, k);
    if k in Keys(d) {
      var j :| 0 <= j < |d| && Keys(d)[j] == k;
      assert i <= j;
    }
  }

  lemma PutUnique<K, V>(d: ODict<K, V>, k: K, v: V)
    requires UniqueKeys(d)
    ensures UniqueKeys(Put(d, k, v))
  {
    PutKeys(d, k, v);
    var d' := Put(d, k, v);
    forall i, j | 0 <= i < j < |d'| ensures d'[i].0 != d'[j].0 {
      assert Keys(d')[i] == d'[i].0 && Keys(d')[j] == d'[j].0;
    }
  }

  /** A dict built from pairs gives each key the value of its last pair. */
  lemma {:induction false} FromPairsGet<K, V>(ps: seq<(K, V)>, k: K)
    ensures Get(FromPairs(ps), k) == LastValue(ps, k)
  {
    if ps != [] {
      FromPairsGet(ps[..|ps| - 1], k);
      PutGet(FromPairs(ps[..|ps| - 1]), ps[|ps| - 1].0, ps[|ps| - 1].1, k);
    }
  }

  /** A dict built from pairs has each key once, in order of first appearance. */
  lemma {:induction false} FromPairsKeys<K, V>(ps: seq<(K, V)>)
    ensures Keys(FromPairs(ps)) == Dedup(Keys(ps))
    ensures UniqueKeys(FromPairs(ps))
  {
    if ps != [] {
      var init := ps[..|ps| - 1];
      FromPairsKeys(init);
      assert Keys(init) == Keys(ps)[..|ps| - 1];
      PutKeys(FromPairs(init), ps[|ps| - 1].0, ps[|ps| - 1].1);
      PutUnique(FromPairs(init), ps[|ps| - 1].0, ps[|ps| - 1].1);
    }
  }

  /** Every key Dedup keeps was in its input. */
  lemma {:induction false} DedupIn<K>(ks: seq<K>, k: K)
    requires k in Dedup(ks)
    ensures k in ks
  {
    var init := ks[..|ks| - 1];
    if k != ks[|ks| - 1] {
      DedupIn(init, k);
      assert k in init;
    }
  }

  /** Dedup of a + b starts with Dedup of a. */
  lemma {:induction false} DedupPrefix<K>(a: seq<K>, b: seq<K>)
    ensures |Dedup(a)| <= |Dedup(a + b)| && Dedup(a + b)[..|Dedup(a)|] == Dedup(a)
    decreases |b|
  {
    if b == [] {
      assert a + b == a;
    } else {
      assert (a + b)[..|a + b| - 1] == a + b[..|b| - 1];
      DedupPrefix(a, b[..|b| - 1]);
    }
  }

  /** Pairs whose keys are already distinct make a dict that is those pairs. */
  lemma {:induction false} FromPairsUnique<K, V>(ps: seq<(K, V)>)
    requires UniqueKeys(ps)
    ensures FromPairs(ps) == ps
  {
    if ps != [] {
      var init := ps[..|ps| - 1];
      var last := ps[|ps| - 1];
      assert UniqueKeys(init);
      FromPairsUnique(init);
      assert IndexOf(init, last.0) == |init|;
      assert init + [last] == ps;
    }
  }

  lemma {:induction false} LastValueSome<K, V>(ps: seq<(K, V)>, k: K)
    ensures LastValue(ps, k).Some? <==> k in Keys(ps)
  {
    if ps != [] {
      LastValueSome(ps[..|ps| - 1], k);
      assert Keys(ps) == Keys(ps[..|ps| - 1]) + [ps[|ps| - 1].0];
    }
  }


  /** The last pair with key k decides LastValue. */
  lemma {:induction false} LastValueAt<K, V>(ps: seq<(K, V)>, k: K, i: nat)
    requires i < |ps| && ps[i].0 == k
    requires forall j | i < j < |ps| :: ps[j].0 != k
    ensures LastValue(ps, k) == Some(ps[i].1)
  {
    if i < |ps| - 1 {
      LastValueAt(ps[..|ps| - 1], k, i);
    }
  }

  /** In pairs a + b, a key's last value comes from b if b has the key at all. */
  lemma {:induction false} LastValueAppend<K, V>(a: seq<(K, V)>, b: seq<(K, V)>, k: K)
    ensures LastValue(a + b, k) == if LastValue(b, k).Some? then LastValue(b, k) else LastValue(a, k)
    decreases |b|
  {
    if b == [] {
      assert a + b == a;
    } else {
      assert (a + b)[..|a + b| - 1] == a + b[..|b| - 1];
      LastValueAppend(a, b[..|b| - 1], k);
    }
  }

  /** Whatever LastValue finds comes from a pair with that key. */
  lemma {:induction false} LastValueFrom<K, V>(ps: seq<(K, V)>, k: K)
    requires LastValue(ps, k).Some?
    ensures exists i | 0 <= i < |ps| :: ps[i] == (k, LastValue(ps, k).value)
  {
    if ps[|ps| - 1].0 != k {
      LastValueFrom(ps[..|ps| - 1], k);
      var i :| 0 <= i < |ps| - 1 && ps[..|ps| - 1][i] == (k, LastValue(ps, k).value);
      assert ps[i] == ps[..|ps| - 1][i];
    }
  }

}
