/**
 * A JavaScript object used as a string-keyed dictionary (`Record<string, string>`).
 * Its keys keep their insertion order, which is what `JSON.stringify` writes out:
 * assigning to a key that is present replaces the value where it stands, and
 * assigning to a new key appends it.
 */
module Record {
  import opened Wrappers

  datatype Entry = Entry(key: string, value: string)

  type Record = seq<Entry>

  /** No key appears twice: the shape every JavaScript object has. */
  predicate DistinctKeys(r: Record) {
    forall i, j :: 0 <= i < j < |r| ==> r[i].key != r[j].key
  }

  function KeyOrder(r: Record): (ks: seq<string>)
    ensures |ks| == |r|
    ensures forall i :: 0 <= i < |r| ==> ks[i] == r[i].key
  {
    if r == [] then [] else [r[0].key] + KeyOrder(r[1..])
  }

  function Keys(r: Record): set<string> {
    set i | 0 <= i < |r| :: r[i].key
  }

  /** `r[k]`: the value stored under k, or None when k is absent. */
  function Get(r: Record, k: string): (o: Option<string>)
    ensures o.Some? <==> k in Keys(r)
    ensures o.Some? ==> exists i :: 0 <= i < |r| && r[i] == Entry(k, o.value)
  {
    if r == [] then None
    else if r[0].key == k then Some(r[0].value)
    else
      var o := Get(r[1..], k);
      assert o.Some? ==> exists i :: 0 <= i < |r[1..]| && r[1..][i] == Entry(k, o.value);
      KeysCons(r);
      o
  }

  /** `r[k] = v` on a copy of r: replaces k's value in place, or appends k. */
  function Put(r: Record, k: string, v: string): (r': Record)
    ensures |r'| == if k in Keys(r) then |r| else |r| + 1
  {
    if r == [] then [Entry(k, v)]
    else if r[0].key == k then [Entry(k, v)] + r[1..]
    else
      KeysCons(r);
      [r[0]] + Put(r[1..], k, v)
  }

  lemma KeysCons(r: Record)
    requires r != []
    ensures Keys(r) == {r[0].key} + Keys(r[1..])
  {
    forall x | x in Keys(r) ensures x in {r[0].key} + Keys(r[1..]) {
      var i :| 0 <= i < |r| && r[i].key == x;
      if i > 0 { assert r[1..][i - 1].key == x; }
    }
    forall x | x in Keys(r[1..]) ensures x in Keys(r) {
      var i :| 0 <= i < |r[1..]| && r[1..][i].key == x;
      assert r[i + 1].key == x;
    }
  }

  lemma HeadKeyNotInTail(r: Record)
    requires r != [] && DistinctKeys(r)
    ensures r[0].key !in Keys(r[1..])
  {
    forall m | 0 <= m < |r| - 1 ensures r[1..][m].key != r[0].key {
      assert r[1..][m] == r[m + 1];
    }
  }

  /** After `r[k] = v`, reading k gives v. */
  lemma {:induction false} GetPutSame(r: Record, k: string, v: string)
    ensures Get(Put(r, k, v), k) == Some(v)
  {
    if r != [] && r[0].key != k {
      GetPutSame(r[1..], k, v);
    }
  }

  /** After `r[k] = v`, every other key reads as before. */
  lemma {:induction false} GetPutOther(r: Record, k: string, v: string, k': string)
    requires k' != k
    ensures Get(Put(r, k, v), k') == Get(r, k')
  {
    if r != [] && r[0].key != k {
      GetPutOther(r[1..], k, v, k');
    }
  }

  /** Assigning to a key leaves the order of the present keys alone and appends a new key last. */
  lemma {:induction false} KeyOrderPut(r: Record, k: string, v: string)
    ensures KeyOrder(Put(r, k, v)) == if k in KeyOrder(r) then KeyOrder(r) else KeyOrder(r) + [k]
  {
    if r != [] && r[0].key != k {
      KeyOrderPut(r[1..], k, v);
      assert KeyOrder(r) == [r[0].key] + KeyOrder(r[1..]);
    }
  }

  /** Assigning again to the same key overwrites: the earlier value leaves no trace. */
  lemma {:induction false} PutPut(r: Record, k: string, v1: string, v2: string)
    ensures Put(Put(r, k, v1), k, v2) == Put(r, k, v2)
  {
    if r != [] && r[0].key != k {
      PutPut(r[1..], k, v1, v2);
    }
  }

  /** Assignment keeps the keys distinct and adds exactly k to the key set. */
  lemma {:induction false} PutKeys(r: Record, k: string, v: string)
    requires DistinctKeys(r)
    ensures DistinctKeys(Put(r, k, v))
    ensures Keys(Put(r, k, v)) == Keys(r) + {k}
  {
    if r == [] {
      assert Keys([Entry(k, v)]) == {k} by {
        assert [Entry(k, v)][0].key == k;
      }
    } else {
      var r' := Put(r, k, v);
      KeysCons(r);
      KeysCons(r');
      if r[0].key != k {
        PutKeys(r[1..], k, v);
        assert r'[1..] == Put(r[1..], k, v);
        forall i, j | 0 <= i < j < |r'| ensures r'[i].key != r'[j].key {
          if i == 0 {
            assert r'[j].key in Keys(r'[1..]) by { assert r'[1..][j - 1] == r'[j]; }
            HeadKeyNotInTail(r);
          } else {
            assert r'[1..][i - 1] == r'[i] && r'[1..][j - 1] == r'[j];
          }
        }
      } else {
        assert r'[1..] == r[1..];
        assert forall i :: 0 < i < |r'| ==> r'[i] == r[i];
      }
    }
  }

  /** With distinct keys, the record has one entry per key. */
  lemma {:induction false} SizeIsKeyCount(r: Record)
    requires DistinctKeys(r)
    ensures |Keys(r)| == |r|
  {
    if r != [] {
      KeysCons(r);
      SizeIsKeyCount(r[1..]);
      HeadKeyNotInTail(r);
    }
  }
}
