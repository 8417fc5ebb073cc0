/** Python dicts: insertion ordered, assignment to an existing key keeps
    its position, assignment to a new key appends, `pop` removes. A dict is
    a sequence of key/value entries with pairwise distinct keys. */
module PyDicts {
  import opened PyJson

  predicate UniqueKeys<K(==, !new), V>(s: seq<(K, V)>) {
    forall i, j | 0 <= i < j < |s| :: s[i].0 != s[j].0
  }

  type PyDict<K(==, !new), V> = s: seq<(K, V)> | UniqueKeys(s) witness []

  function Keys<K(==, !new), V>(d: PyDict<K, V>): set<K> {
    set i | 0 <= i < |d| :: d[i].0
  }

  /** The keys in insertion order, as `list(d)` gives them. */
  function KeyList<K(==, !new), V>(d: PyDict<K, V>): (r: seq<K>)
    ensures |r| == |d|
    ensures forall i | 0 <= i < |d| :: r[i] == d[i].0
  {
    seq(|d|, i requires 0 <= i < |d| => d[i].0)
  }

  /** `list(d.values())`. */
  function Values<K(==, !new), V>(d: PyDict<K, V>): (r: seq<V>)
    ensures |r| == |d|
    ensures forall i | 0 <= i < |d| :: r[i] == d[i].1
  {
    seq(|d|, i requires 0 <= i < |d| => d[i].1)
  }

  lemma TailUnique<K(!new), V>(d: PyDict<K, V>)
    requires |d| > 0
    ensures UniqueKeys(d[1..])
    ensures Keys(d) == {d[0].0} + Keys(d[1..])
    ensures d[0].0 !in Keys(d[1..])
  {
    assert forall i | 0 <= i < |d| - 1 :: d[1..][i] == d[i + 1];
    forall k | k in Keys(d)
      ensures k in {d[0].0} + Keys(d[1..])
    {
      var i :| 0 <= i < |d| && d[i].0 == k;
      if i > 0 {
        assert d[1..][i - 1].0 == k;
      }
    }
  }

  /** `d.get(k)`. */
  function Get<K(==, !new), V>(d: PyDict<K, V>, k: K): (r: Option<V>)
    ensures r.Some? <==> k in Keys(d)
    ensures forall i | 0 <= i < |d| && d[i].0 == k :: r == Some(d[i].1)
    decreases |d|
  {
    if |d| == 0 then None
    else
      TailUnique(d);
      if d[0].0 == k then Some(d[0].1)
      else
        var r := Get(d[1..], k);
        assert forall i | 0 < i < |d| :: d[i] == d[1..][i - 1];
        r
  }

  /** The position of `k` in `d`, or -1. */
  function IndexOf<K(==, !new), V>(d: PyDict<K, V>, k: K): (r: int)
    ensures -1 <= r < |d|
    ensures r == -1 <==> k !in Keys(d)
    ensures r >= 0 ==> d[r].0 == k
  {
    if k in Keys(d) then var i :| 0 <= i < |d| && d[i].0 == k; i else -1
  }

  /** `d[k] = v`. */
  function Put<K(==, !new), V>(d: PyDict<K, V>, k: K, v: V): (r: PyDict<K, V>)
    ensures Keys(r) == Keys(d) + {k}
    ensures Get(r, k) == Some(v)
    ensures forall k' | k' != k :: Get(r, k') == Get(d, k')
    ensures k in Keys(d) ==> KeyList(r) == KeyList(d)
    ensures k !in Keys(d) ==> r == d + [(k, v)]
  {
    var i := IndexOf(d, k);
    if i < 0 then
      var r: seq<(K, V)> := d + [(k, v)];
      assert forall j | 0 <= j < |d| :: r[j] == d[j];
      assert UniqueKeys(r);
      assert Keys(r) == Keys(d) + {k} by {
        assert r[|d|].0 == k;
      }
      assert forall k' | k' != k :: Get(r, k') == Get(d, k') by {
        forall k' | k' != k
          ensures Get(r, k') == Get(d, k')
        {
          if k' in Keys(d) {
            var j :| 0 <= j < |d| && d[j].0 == k';
            assert r[j] == d[j];
          }
        }
      }
      r
    else
      var r: seq<(K, V)> := d[i := (k, v)];
      assert UniqueKeys(r);
      assert Keys(r) == Keys(d) by {
        forall x | x in Keys(d) ensures x in Keys(r) {
          var j :| 0 <= j < |d| && d[j].0 == x;
          assert r[j].0 == x;
        }
      }
      assert forall k' | k' != k :: Get(r, k') == Get(d, k') by {
        forall k' | k' != k
          ensures Get(r, k') == Get(d, k')
        {
          if k' in Keys(d) {
            var j :| 0 <= j < |d| && d[j].0 == k';
            assert r[j] == d[j];
          }
        }
      }
      assert KeyList(r) == KeyList(d);
      r
  }

  /** Entries whose key is not `k`, in order. */
  function Without<K(==, !new), V>(d: seq<(K, V)>, k: K): (r: seq<(K, V)>)
    ensures forall e | e in r :: e in d && e.0 != k
    ensures forall e | e in d && e.0 != k :: e in r
  {
    if |d| == 0 then []
    else if d[0].0 == k then Without(d[1..], k)
    else [d[0]] + Without(d[1..], k)
  }

  lemma WithoutUnique<K(!new), V>(d: PyDict<K, V>, k: K)
    ensures UniqueKeys(Without(d, k))
    decreases |d|
  {
    if |d| > 0 {
      TailUnique(d);
      WithoutUnique(d[1..], k);
      var t := Without(d[1..], k);
      if d[0].0 != k {
        forall j | 0 <= j < |t|
          ensures t[j].0 != d[0].0
        {
          assert t[j] in t;
          assert t[j] in d[1..];
        }
        assert ([d[0]] + t)[1..] == t;
      }
    }
  }

  /** `d.pop(k, None)`: the dict without `k`; the other entries keep their
      order. */
  function Pop<K(==, !new), V>(d: PyDict<K, V>, k: K): (r: PyDict<K, V>)
    ensures Keys(r) == Keys(d) - {k}
    ensures Get(r, k) == None
    ensures forall k' | k' != k :: Get(r, k') == Get(d, k')
    ensures k !in Keys(d) ==> r == d
    ensures |r| <= |d|
  {
    WithoutUnique(d, k);
    var r: PyDict<K, V> := Without(d, k);
    forall k' | k' != k
      ensures Get(r, k') == Get(d, k')
    {
      PopGet(d, k, k');
    }
    assert Keys(r) == Keys(d) - {k} by {
      forall x ensures x in Keys(r) <==> x in Keys(d) - {k} {
        if x != k { PopGet(d, k, x); } else { PopGet(d, k, x); }
      }
    }
    if k !in Keys(d) then
      WithoutAbsent(d, k);
      r
    else
      WithoutShorter(d, k);
      r
  }

  lemma {:induction false} PopGet<K(!new), V>(d: PyDict<K, V>, k: K, k': K)
    ensures UniqueKeys(Without(d, k))
    ensures k' != k ==> Get(Without(d, k), k') == Get(d, k')
    ensures Get(Without(d, k), k) == None
    decreases |d|
  {
    WithoutUnique(d, k);
    if |d| > 0 {
      TailUnique(d);
      PopGet(d[1..], k, k');
      var t: PyDict<K, V> := Without(d[1..], k);
      if d[0].0 != k {
        var r: PyDict<K, V> := [d[0]] + t;
        assert r[1..] == t;
        assert Without(d, k) == r;
      }
    }
  }

  lemma {:induction false} WithoutAbsent<K(!new), V>(d: seq<(K, V)>, k: K)
    requires forall i | 0 <= i < |d| :: d[i].0 != k
    ensures Without(d, k) == d
    decreases |d|
  {
    if |d| > 0 {
      WithoutAbsent(d[1..], k);
    }
  }

  lemma {:induction false} WithoutShorter<K(!new), V>(d: seq<(K, V)>, k: K)
    ensures |Without(d, k)| <= |d|
    decreases |d|
  {
    if |d| > 0 {
      WithoutShorter(d[1..], k);
    }
  }
}
