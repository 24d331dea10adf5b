/** A Python `dict` keyed by strings: a map plus the order in which keys were
    first inserted. Overwriting a key keeps its position; deleting it forgets
    the position. Iterating `.values()` follows that order, which is what makes
    later stable sorts deterministic. */
module OrderedTable {
  import opened Util

  datatype Table<V> = Table(keys: seq<string>, rows: map<string, V>)

  /** Every key is listed exactly once and the listing matches the map. */
  ghost predicate Valid<V>(t: Table<V>) {
    Distinct(t.keys) && (forall k :: k in t.rows <==> k in t.keys)
  }

  function Empty<V>(): (t: Table<V>)
    ensures Valid(t) && t.rows == map[]
  {
    Table([], map[])
  }

  /** `d[k] = v`. */
  function Put<V>(t: Table<V>, k: string, v: V): (r: Table<V>)
    requires Valid(t)
    ensures Valid(r)
    ensures r.rows == t.rows[k := v]
    ensures k in t.rows ==> r.keys == t.keys
    ensures k !in t.rows ==> r.keys == t.keys + [k]
  {
    if k in t.rows then Table(t.keys, t.rows[k := v])
    else Table(t.keys + [k], t.rows[k := v])
  }

  /** `del d[k]` when `k` is present; nothing otherwise. */
  function Remove<V>(t: Table<V>, k: string): (r: Table<V>)
    requires Valid(t)
    ensures Valid(r)
    ensures r.rows == t.rows - {k}
  {
    DistinctRemoveFirst(t.keys, k);
    Table(RemoveFirst(t.keys, k), t.rows - {k})
  }

  /** `list(d.values())`. */
  function Values<V>(t: Table<V>): (vs: seq<V>)
    requires Valid(t)
    ensures |vs| == |t.keys|
    ensures forall i :: 0 <= i < |vs| ==> vs[i] == t.rows[t.keys[i]]
  {
    seq(|t.keys|, i requires 0 <= i < |t.keys| && Valid(t) => t.rows[t.keys[i]])
  }

  /** Delete every entry for which `drop(key, value)` holds:
      `for k in [k for k, v in d.items() if drop(k, v)]: del d[k]`. */
  function RemoveWhere<V>(t: Table<V>, drop: (string, V) -> bool): (r: Table<V>)
    requires Valid(t)
    ensures Valid(r)
    ensures forall k :: k in r.rows <==> k in t.rows && !drop(k, t.rows[k])
    ensures forall k :: k in r.rows ==> r.rows[k] == t.rows[k]
    ensures |t.keys| - |r.keys| == |t.keys| - |Filter(t.keys, k => k in t.rows && !drop(k, t.rows[k]))|
  {
    var keep := (k: string) => k in t.rows && !drop(k, t.rows[k]);
    var ks := Filter(t.keys, keep);
    forall k ensures k in ks <==> k in t.keys && keep(k) {
      FilterMembership(t.keys, keep, k);
    }
    FilterDistinct(t.keys, keep);
    Table(ks, map k | k in t.rows && keep(k) :: t.rows[k])
  }

  /** How many entries `RemoveWhere` deletes. */
  function CountWhereEntries<V>(t: Table<V>, drop: (string, V) -> bool): (n: nat)
    requires Valid(t)
    ensures n == |t.keys| - |RemoveWhere(t, drop).keys|
  {
    |t.keys| - |Filter(t.keys, k => k in t.rows && !drop(k, t.rows[k]))|
  }

  lemma {:induction false} DistinctRemoveFirst(s: seq<string>, x: string)
    requires Distinct(s)
    ensures Distinct(RemoveFirst(s, x))
    ensures forall y :: y in RemoveFirst(s, x) <==> y in s && y != x
  {
    if |s| > 0 {
      var t := s[1..];
      DistinctTail(s);
      if s[0] != x {
        DistinctRemoveFirst(t, x);
        assert RemoveFirst(s, x) == [s[0]] + RemoveFirst(t, x);
        DistinctCons(s[0], RemoveFirst(t, x));
      } else {
        assert RemoveFirst(s, x) == t;
      }
    }
  }

  lemma DistinctTail<T>(s: seq<T>)
    requires Distinct(s) && |s| > 0
    ensures Distinct(s[1..]) && s[0] !in s[1..]
  {
    forall i, j | 0 <= i < j < |s| - 1
      ensures s[1..][i] != s[1..][j]
    {
      assert s[1..][i] == s[i + 1] && s[1..][j] == s[j + 1];
    }
  }

  lemma DistinctCons<T>(a: T, t: seq<T>)
    requires Distinct(t) && a !in t
    ensures Distinct([a] + t)
  {
    var s := [a] + t;
    forall i, j | 0 <= i < j < |s|
      ensures s[i] != s[j]
    {
      assert s[j] == t[j - 1];
      if i > 0 {
        assert s[i] == t[i - 1];
      }
    }
  }

  lemma FilterDistinct<T>(s: seq<T>, p: T -> bool)
    requires Distinct(s)
    ensures Distinct(Filter(s, p))
  {
    if |s| > 0 {
      assert Distinct(s[1..]);
      FilterDistinct(s[1..], p);
      FilterMembership(s[1..], p, s[0]);
      assert s[0] !in s[1..];
    }
  }

  /** Every stored value is listed. */
  lemma StoredAreValues<V>(t: Table<V>, x: V)
    requires Valid(t)
    ensures x in t.rows.Values ==> x in Values(t)
  {
    if x in t.rows.Values {
      var k :| k in t.rows && t.rows[k] == x;
      var i :| 0 <= i < |t.keys| && t.keys[i] == k;
      assert Values(t)[i] == x;
    }
  }

  /** Every listed value is a stored value. */
  lemma ValuesAreStored<V>(t: Table<V>, x: V)
    requires Valid(t)
    ensures x in Values(t) ==> x in t.rows.Values
  {
    if x in Values(t) {
      var i :| 0 <= i < |Values(t)| && Values(t)[i] == x;
      assert t.keys[i] in t.rows;
    }
  }
}
