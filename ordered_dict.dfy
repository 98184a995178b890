/** Python's `dict` as the application uses it: a sequence of key/value pairs
    in insertion order, each key at most once. Assigning to an existing key
    keeps its position; assigning to a new key appends it. */
module OrderedDict {
  import opened Numeric
  import opened Wrappers

  type Dict<V> = seq<(string, V)>

  /** `list(d.keys())`, in insertion order. */
  function Keys<V>(d: Dict<V>): (ks: seq<string>)
    ensures |ks| == |d|
    ensures forall i | 0 <= i < |d| :: ks[i] == d[i].0
  {
    if d == [] then [] else [d[0].0] + Keys(d[1..])
  }

  predicate DistinctKeys<V>(d: Dict<V>) {
    forall i, j | 0 <= i < j < |d| :: d[i].0 != d[j].0
  }

  /** `d.get(k, default)`. */
  function Get<V>(d: Dict<V>, k: string, default: V): V {
    if d == [] then default
    else if d[0].0 == k then d[0].1
    else Get(d[1..], k, default)
  }

  /** `d.get(k)`: the value stored with `k`, or nothing for an absent key. */
  function Find<V>(d: Dict<V>, k: string): (r: Option<V>)
    ensures r.None? <==> k !in Keys(d)
    ensures r.Some? ==> (k, r.value) in d
  {
    if d == [] then None
    else
      assert Keys(d) == [d[0].0] + Keys(d[1..]);
      if d[0].0 == k then Some(d[0].1) else Find(d[1..], k)
  }

  /** With distinct keys, `d.get(k)` finds the one entry stored with `k`. */
  lemma FindFound<V>(d: Dict<V>, i: nat)
    requires DistinctKeys(d) && i < |d|
    ensures Find(d, d[i].0) == Some(d[i].1)
  {
    var r := Find(d, d[i].0);
    var j :| 0 <= j < |d| && d[j] == (d[i].0, r.value);
  }

  /** An absent key gives the default. */
  lemma {:induction false} GetAbsent<V>(d: Dict<V>, k: string, default: V)
    requires k !in Keys(d)
    ensures Get(d, k, default) == default
  {
    if d != [] {
      assert Keys(d) == [d[0].0] + Keys(d[1..]);
      GetAbsent(d[1..], k, default);
    }
  }

  /** With distinct keys, `d.get(k, default)` is the value stored with `k`. */
  lemma {:induction false} GetFound<V>(d: Dict<V>, i: nat, default: V)
    requires DistinctKeys(d) && i < |d|
    ensures Get(d, d[i].0, default) == d[i].1
  {
    if i > 0 {
      assert d[1..][i - 1] == d[i];
      assert DistinctKeys(d[1..]) by {
        forall a, b | 0 <= a < b < |d| - 1 ensures d[1..][a].0 != d[1..][b].0 {
          assert d[1..][a] == d[a + 1] && d[1..][b] == d[b + 1];
        }
      }
      GetFound(d[1..], i - 1, default);
    }
  }

  /** `d[k] = v`: an existing key keeps its place, a new key goes last. */
  function Put<V>(d: Dict<V>, k: string, v: V): Dict<V> {
    if d == [] then [(k, v)]
    else if d[0].0 == k then [(k, v)] + d[1..]
    else [d[0]] + Put(d[1..], k, v)
  }

  /** The keys after `d[k] = v`: unchanged when `k` was present, `k`
      appended when it was not. */
  lemma {:induction false} PutKeys<V>(d: Dict<V>, k: string, v: V)
    ensures Keys(Put(d, k, v)) == if k in Keys(d) then Keys(d) else Keys(d) + [k]
  {
    if d != [] && d[0].0 != k {
      PutKeys(d[1..], k, v);
      assert Keys(d) == [d[0].0] + Keys(d[1..]);
    }
  }

  /** Assigning a key not yet present appends it. */
  lemma {:induction false} PutFresh<V>(d: Dict<V>, k: string, v: V)
    requires k !in Keys(d)
    ensures Put(d, k, v) == d + [(k, v)]
  {
    if d != [] {
      assert Keys(d) == [d[0].0] + Keys(d[1..]);
      PutFresh(d[1..], k, v);
      assert d == [d[0]] + d[1..];
    }
  }

  /** Assigning again to the key added last replaces its value in place. */
  lemma {:induction false} PutLast<V>(d: Dict<V>, k: string, v: V, w: V)
    requires k !in Keys(d)
    ensures Put(d + [(k, v)], k, w) == d + [(k, w)]
  {
    if d != [] {
      assert Keys(d) == [d[0].0] + Keys(d[1..]);
      assert (d + [(k, v)])[1..] == d[1..] + [(k, v)];
      PutLast(d[1..], k, v, w);
      assert d == [d[0]] + d[1..];
    } else {
      assert [] + [(k, v)] == [(k, v)];
    }
  }

  /** After `d[k] = v`, looking `k` up gives `v`. */
  lemma {:induction false} PutGetSame<V>(d: Dict<V>, k: string, v: V, default: V)
    ensures Get(Put(d, k, v), k, default) == v
  {
    if d != [] && d[0].0 != k {
      PutGetSame(d[1..], k, v, default);
    }
  }

  /** Assigning to one key leaves every other key's value as it was. */
  lemma {:induction false} PutKeepsOthers<V>(d: Dict<V>, k: string, v: V, k': string, default: V)
    requires k' != k
    ensures Get(Put(d, k, v), k', default) == Get(d, k', default)
  {
    if d != [] && d[0].0 != k {
      PutKeepsOthers(d[1..], k, v, k', default);
    }
  }

  /** Assignment never introduces a duplicate key. */
  lemma PutDistinct<V>(d: Dict<V>, k: string, v: V)
    requires DistinctKeys(d)
    ensures DistinctKeys(Put(d, k, v))
  {
    var r := Put(d, k, v);
    var kr := Keys(r);
    PutKeys(d, k, v);
    forall i, j | 0 <= i < j < |r| ensures r[i].0 != r[j].0 {
      assert kr[i] == r[i].0 && kr[j] == r[j].0;
    }
  }

  /** `sum(d.values())`. */
  function SumValues(d: Dict<real>): real {
    if d == [] then 0.0 else d[0].1 + SumValues(d[1..])
  }

  lemma SumValuesCons(x: (string, real), d: Dict<real>)
    ensures SumValues([x] + d) == x.1 + SumValues(d)
  {
    assert ([x] + d)[1..] == d;
  }

  /** `d[k] = d.get(k, 0) + w` raises the total of the values by `w`. */
  lemma {:induction false} AddToSumValues(d: Dict<real>, k: string, w: real)
    ensures SumValues(Put(d, k, Get(d, k, 0.0) + w)) == SumValues(d) + w
  {
    if d == [] {
      SumValuesCons((k, w), []);
    } else if d[0].0 == k {
      AddToFirst(d, w);
    } else {
      var x := Get(d[1..], k, 0.0) + w;
      assert Get(d, k, 0.0) + w == x;
      AddToSumValues(d[1..], k, w);
      assert Put(d, k, x) == [d[0]] + Put(d[1..], k, x);
      SumValuesCons(d[0], Put(d[1..], k, x));
      assert SumValues(d) == d[0].1 + SumValues(d[1..]);
    }
  }

  lemma AddToFirst(d: Dict<real>, w: real)
    requires d != []
    ensures SumValues(Put(d, d[0].0, d[0].1 + w)) == SumValues(d) + w
  {
    SumValuesCons((d[0].0, d[0].1 + w), d[1..]);
    SumValuesCons(d[0], d[1..]);
    assert [d[0]] + d[1..] == d;
  }

  /** Adding a pair at the end adds its value to the total. */
  lemma {:induction false} SumValuesSnoc(d: Dict<real>, x: (string, real))
    ensures SumValues(d + [x]) == SumValues(d) + x.1
  {
    if d == [] {
      assert [] + [x] == [x];
      SumValuesCons(x, []);
    } else {
      assert (d + [x])[1..] == d[1..] + [x];
      SumValuesSnoc(d[1..], x);
    }
  }

  /** The distinct elements of `s` in order of first appearance, as the keys
      of a dictionary filled from `s` end up. */
  function Dedup(s: seq<string>): seq<string> {
    if s == [] then []
    else
      var d := Dedup(s[..|s| - 1]);
      if s[|s| - 1] in d then d else d + [s[|s| - 1]]
  }

  /** Dropping repeats keeps every element and adds none. */
  lemma {:induction false} DedupMembers(s: seq<string>)
    ensures forall x :: x in Dedup(s) <==> x in s
  {
    if s != [] {
      DedupMembers(s[..|s| - 1]);
      assert s == s[..|s| - 1] + [s[|s| - 1]];
    }
  }

  /** First appearances hold each element once. */
  lemma {:induction false} DedupDistinct(s: seq<string>)
    ensures forall i, j | 0 <= i < j < |Dedup(s)| :: Dedup(s)[i] != Dedup(s)[j]
  {
    if s != [] {
      DedupDistinct(s[..|s| - 1]);
    }
  }
}
