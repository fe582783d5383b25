/**
 * Python dictionaries keep insertion order, and several components depend
 * on it (first match wins, steps are exported in insertion order, risks are
 * concatenated in goal order). `ODict` is a map paired with the order in
 * which its keys were first inserted. Assigning to an existing key keeps
 * its position; deleting a key removes it from the order.
 */
module OrderedDicts {
  import opened Common

  datatype RawDict<K, V> = RawDict(keys: seq<K>, m: map<K, V>)
  {
    ghost predicate Valid()
    {
      (forall i, j :: 0 <= i < j < |keys| ==> keys[i] != keys[j]) &&
      m.Keys == (set i | 0 <= i < |keys| :: keys[i])
    }
  }

  type ODict<K, V> = d: RawDict<K, V> | d.Valid() witness RawDict([], map[])

  function Empty<K, V>(): (d: ODict<K, V>)
    ensures |d.keys| == 0 && d.m == map[]
  {
    RawDict([], map[])
  }

  function Get<K, V>(d: ODict<K, V>, k: K): (r: Option<V>)
    ensures r.Some? <==> k in d.m
    ensures r.Some? ==> r.value == d.m[k]
  {
    if k in d.m then Some(d.m[k]) else None
  }

  lemma InKeys<K, V>(d: ODict<K, V>, k: K)
    ensures k in d.m <==> k in d.keys
  {
    if k in d.keys {
      var i :| 0 <= i < |d.keys| && d.keys[i] == k;
    }
  }

  /** `d.get(k, default)`. */
  function GetOr<K, V>(d: ODict<K, V>, k: K, default: V): V
  {
    if k in d.m then d.m[k] else default
  }

  /** `d[k] = v`: a new key goes last, an existing key keeps its place. */
  function Put<K, V>(d: ODict<K, V>, k: K, v: V): (r: ODict<K, V>)
    ensures r.m == d.m[k := v]
    ensures k in d.m ==> r.keys == d.keys
    ensures k !in d.m ==> r.keys == d.keys + [k]
  {
    if k in d.m then RawDict(d.keys, d.m[k := v])
    else
      AppendKeepsValid(d, k, v);
      RawDict(d.keys + [k], d.m[k := v])
  }

  lemma AppendKeepsValid<K, V>(d: ODict<K, V>, k: K, v: V)
    requires k !in d.m
    ensures RawDict(d.keys + [k], d.m[k := v]).Valid()
  {
    InKeys(d, k);
    var ks := d.keys + [k];
    var S := set i | 0 <= i < |ks| :: ks[i];
    var M := d.m[k := v].Keys;
    assert M == S by {
      forall x | x in M ensures x in S {
        if x == k {
          assert ks[|d.keys|] == k;
        } else {
          var i :| 0 <= i < |d.keys| && d.keys[i] == x;
          assert ks[i] == x;
        }
      }
    }
  }

  function RemoveKey<K(==)>(s: seq<K>, k: K): (r: seq<K>)
    ensures forall i :: 0 <= i < |r| ==> r[i] in s && r[i] != k
    ensures forall i :: 0 <= i < |s| && s[i] != k ==> s[i] in r
    ensures (forall i, j :: 0 <= i < j < |s| ==> s[i] != s[j]) ==>
              (forall i, j :: 0 <= i < j < |r| ==> r[i] != r[j])
    ensures |r| <= |s|
  {
    if |s| == 0 then []
    else if s[0] == k then RemoveKey(s[1..], k)
    else [s[0]] + RemoveKey(s[1..], k)
  }

  /** `del d[k]` when present, `d.pop(k, None)` in general. */
  function Remove<K, V>(d: ODict<K, V>, k: K): (r: ODict<K, V>)
    ensures r.m == d.m - {k}
    ensures k !in d.m ==> r == d
  {
    if k in d.m then RawDict(RemoveKey(d.keys, k), d.m - {k}) else d
  }

  /** Deleting a key that sits at position `i` closes the gap and keeps every other key in its order. */
  lemma {:induction false} RemoveKeyAt<K>(s: seq<K>, k: K, i: nat)
    requires forall a, b :: 0 <= a < b < |s| ==> s[a] != s[b]
    requires i < |s| && s[i] == k
    ensures RemoveKey(s, k) == s[..i] + s[i + 1..]
  {
    if i == 0 {
      RemoveKeyAbsent(s[1..], k);
      assert s[..0] + s[1..] == s[1..];
    } else {
      RemoveKeyAt(s[1..], k, i - 1);
      assert s[..i] + s[i + 1..] == [s[0]] + (s[1..][..i - 1] + s[1..][i..]);
    }
  }

  lemma {:induction false} RemoveKeyAbsent<K>(s: seq<K>, k: K)
    requires forall a :: 0 <= a < |s| ==> s[a] != k
    ensures RemoveKey(s, k) == s
  {
    if |s| > 0 {
      RemoveKeyAbsent(s[1..], k);
      assert [s[0]] + s[1..] == s;
    }
  }

  /** `del d[k]` leaves the other entries, keys and values, in their order. */
  lemma RemoveInOrder<K, V>(d: ODict<K, V>, k: K, i: nat)
    requires i < |d.keys| && d.keys[i] == k
    ensures Remove(d, k).keys == d.keys[..i] + d.keys[i + 1..]
    ensures Values(Remove(d, k)) == Values(d)[..i] + Values(d)[i + 1..]
  {
    assert k in d.m;
    RemoveKeyAt(d.keys, k, i);
    var r := Remove(d, k);
    var vs := Values(d);
    var want := vs[..i] + vs[i + 1..];
    assert |Values(r)| == |want|;
    forall j | 0 <= j < |want|
      ensures Values(r)[j] == want[j]
    {
      if j < i {
        assert r.keys[j] == d.keys[j];
      } else {
        assert r.keys[j] == d.keys[j + 1];
      }
    }
  }

  /** `list(d.values())`. */
  function Values<K, V>(d: ODict<K, V>): (r: seq<V>)
    ensures |r| == |d.keys|
    ensures forall i :: 0 <= i < |r| ==> r[i] == d.m[d.keys[i]]
  {
    seq(|d.keys|, i requires 0 <= i < |d.keys| => d.m[d.keys[i]])
  }

  /** Assigning to an existing key changes its value in place in `values()`. */
  lemma ValuesPutExisting<K, V>(d: ODict<K, V>, k: K, v: V, i: nat)
    requires i < |d.keys| && d.keys[i] == k
    ensures Values(Put(d, k, v)) == Values(d)[i := v]
  {
    var a := Values(Put(d, k, v));
    var b := Values(d)[i := v];
    forall j | 0 <= j < |a| ensures a[j] == b[j] {
      if j != i { assert d.keys[j] != k; }
    }
  }

  /** Assigning to a new key appends its value to `values()`. */
  lemma ValuesPutNew<K, V>(d: ODict<K, V>, k: K, v: V)
    requires k !in d.m
    ensures Values(Put(d, k, v)) == Values(d) + [v]
  {
  }

  /** `len(d)`. */
  lemma LengthIsCardinality<K, V>(d: ODict<K, V>)
    ensures |d.keys| == |d.m.Keys|
  {
    DistinctCard(d.keys);
  }

  lemma DistinctCard<K>(s: seq<K>)
    requires forall i, j :: 0 <= i < j < |s| ==> s[i] != s[j]
    ensures |set i | 0 <= i < |s| :: s[i]| == |s|
  {
    if |s| > 0 {
      var t := s[1..];
      assert forall i, j :: 0 <= i < j < |t| ==> t[i] != t[j] by {
        forall i, j | 0 <= i < j < |t| ensures t[i] != t[j] {
          assert t[i] == s[i + 1] && t[j] == s[j + 1];
        }
      }
      DistinctCard(t);
      var S := set i | 0 <= i < |s| :: s[i];
      var T := set i | 0 <= i < |t| :: t[i];
      assert S == T + {s[0]} by {
        forall x | x in S ensures x in T + {s[0]} {
          var i :| 0 <= i < |s| && s[i] == x;
          if i > 0 { assert t[i - 1] == x; }
        }
        forall x | x in T ensures x in S {
          var i :| 0 <= i < |t| && t[i] == x;
          assert s[i + 1] == x;
        }
      }
      assert s[0] !in T;
    }
  }

  /** Sum of the values of a `Dict[str, float]`, as `sum(d.values())`. */
  function SumValues<K>(d: ODict<K, real>): real
  {
    SumReals(Values(d))
  }
}
