/**
 * Python's insertion-ordered dict, as a sequence of (key, value) pairs.
 * Reading a key gives its LAST binding (what `dict(pairs)` keeps); `Set`
 * overwrites an existing key where it stands and appends a new one, as
 * `d[k] = v` does; `Update` is `dict.update` with a sequence of pairs.
 */
module OrderedDict {
  import opened Wrappers

  function Get<K(==), V>(d: seq<(K, V)>, k: K): Option<V>
    decreases |d|
  {
    if d == [] then None
    else if d[|d| - 1].0 == k then Some(d[|d| - 1].1)
    else Get(d[..|d| - 1], k)
  }

  function Keys<K, V>(d: seq<(K, V)>): (ks: seq<K>)
    ensures |ks| == |d|
    ensures forall i :: 0 <= i < |d| ==> ks[i] == d[i].0
    decreases |d|
  {
    if d == [] then [] else Keys(d[..|d| - 1]) + [d[|d| - 1].0]
  }

  /** Every binding of `k` gets the value `v`; other entries and the order stay. */
  function Replace<K(==), V>(d: seq<(K, V)>, k: K, v: V): (r: seq<(K, V)>)
    ensures Keys(r) == Keys(d)
    decreases |d|
  {
    if d == [] then []
    else
      var last := d[|d| - 1];
      Replace(d[..|d| - 1], k, v) + [if last.0 == k then (k, v) else last]
  }

  /** `d[k] = v` */
  function Set<K(==), V>(d: seq<(K, V)>, k: K, v: V): (r: seq<(K, V)>)
    ensures |r| == if Get(d, k).Some? then |d| else |d| + 1
  {
    if Get(d, k).Some? then Replace(d, k, v) else d + [(k, v)]
  }

  /** `d.update(pairs)`: the pairs are assigned one after the other. */
  function Update<K(==), V>(d: seq<(K, V)>, pairs: seq<(K, V)>): (r: seq<(K, V)>)
    ensures |d| <= |r| <= |d| + |pairs|
    decreases |pairs|
  {
    if pairs == [] then d
    else
      var last := pairs[|pairs| - 1];
      Set(Update(d, pairs[..|pairs| - 1]), last.0, last.1)
  }

  lemma {:induction false} GetAppend<K, V>(d: seq<(K, V)>, k: K, v: V, k': K)
    ensures Get(d + [(k, v)], k') == if k' == k then Some(v) else Get(d, k')
  {
    assert (d + [(k, v)])[..|d|] == d;
  }

  lemma {:induction false} GetReplace<K, V>(d: seq<(K, V)>, k: K, v: V, k': K)
    ensures Get(Replace(d, k, v), k') == if k' == k && Get(d, k).Some? then Some(v) else Get(d, k')
    decreases |d|
  {
    if d != [] {
      var init, last := d[..|d| - 1], d[|d| - 1];
      GetReplace(init, k, v, k');
      GetAppend(Replace(init, k, v), if last.0 == k then k else last.0,
                if last.0 == k then v else last.1, k');
    }
  }

  /** Assigning a key makes it read back as the new value and leaves every other key alone. */
  lemma GetSet<K, V>(d: seq<(K, V)>, k: K, v: V, k': K)
    ensures Get(Set(d, k, v), k') == if k' == k then Some(v) else Get(d, k')
  {
    if Get(d, k).Some? {
      GetReplace(d, k, v, k');
    } else {
      GetAppend(d, k, v, k');
    }
  }

  /** Keys already present keep their place; a new key goes at the end. */
  lemma SetKeys<K, V>(d: seq<(K, V)>, k: K, v: V)
    ensures Keys(Set(d, k, v)) == if Get(d, k).Some? then Keys(d) else Keys(d) + [k]
  {
  }

  /**
   * After `d.update(pairs)` a key holds its value from `pairs` if it is given
   * there (the last one given wins), and its old value from `d` otherwise.
   */
  lemma {:induction false} GetUpdate<K, V>(d: seq<(K, V)>, pairs: seq<(K, V)>, k: K)
    ensures Get(Update(d, pairs), k) == if Get(pairs, k).Some? then Get(pairs, k) else Get(d, k)
    decreases |pairs|
  {
    if pairs != [] {
      var init, last := pairs[..|pairs| - 1], pairs[|pairs| - 1];
      GetUpdate(d, init, k);
      GetSet(Update(d, init), last.0, last.1, k);
    }
  }

  /** `update` keeps the old keys, in their old order, as a prefix. */
  lemma {:induction false} UpdateKeepsKeys<K, V>(d: seq<(K, V)>, pairs: seq<(K, V)>)
    ensures |Keys(d)| <= |Keys(Update(d, pairs))|
    ensures Keys(Update(d, pairs))[..|d|] == Keys(d)
    decreases |pairs|
  {
    if pairs != [] {
      var init, last := pairs[..|pairs| - 1], pairs[|pairs| - 1];
      UpdateKeepsKeys(d, init);
      SetKeys(Update(d, init), last.0, last.1);
    }
  }
}
