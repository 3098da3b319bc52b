/**
 * `DataGridFilters` as the JavaScript object the grid keeps: an ordered list
 * of own properties in insertion order, which is the order `Object.entries`,
 * spread and `delete` keep for keys that are not array indices, whose values are a `ColumnFilter` or `undefined`.
 * `Defined` is the aggregate filter map the rest of the grid reasons about.
 */
module FilterObjects {
  import opened Options
  import opened GridTypes

  /** One own property `key: filter` of the object. */
  datatype Entry = Entry(key: string, filter: Option<ColumnFilter>)

  type FilterObject = seq<Entry>

  /** The keys of the object, as a set. */
  function KeySet(o: FilterObject): set<string>
  {
    if o == [] then {} else {o[0].key} + KeySet(o[1..])
  }

  /** An object never has two properties with the same key. */
  predicate DistinctKeys(o: FilterObject)
  {
    o == [] || (o[0].key !in KeySet(o[1..]) && DistinctKeys(o[1..]))
  }

  /** No property holds `undefined`. */
  predicate NoUndefined(o: FilterObject)
  {
    o == [] || (o[0].filter.Some? && NoUndefined(o[1..]))
  }

  /** `o[k]`: the value of property `k`, `undefined` when it is absent. */
  function Get(o: FilterObject, k: string): (r: Option<ColumnFilter>)
    ensures r.Some? ==> k in KeySet(o)
  {
    if o == [] then None
    else if o[0].key == k then o[0].filter
    else Get(o[1..], k)
  }

  /** The position of property `k` in the object's key order. */
  function IndexOf(o: FilterObject, k: string): (i: nat)
    requires k in KeySet(o)
    ensures i < |o| && o[i].key == k
  {
    if o[0].key == k then 0 else 1 + IndexOf(o[1..], k)
  }

  /** `delete o[k]`: removes property `k`, keeping the order of the others. */
  function Delete(o: FilterObject, k: string): (r: FilterObject)
    requires DistinctKeys(o)
    ensures DistinctKeys(r)
    ensures KeySet(r) == KeySet(o) - {k}
  {
    if o == [] then []
    else if o[0].key == k then o[1..]
    else
      var rest := Delete(o[1..], k);
      assert ([o[0]] + rest)[1..] == rest;
      [o[0]] + rest
  }

  /**
   * Deleting `k` removes exactly the property `k`, if there is one, and
   * leaves every other property where and as it was.
   */
  lemma {:induction false} DeleteRemovesOne(o: FilterObject, k: string)
    requires DistinctKeys(o)
    ensures k !in KeySet(o) ==> Delete(o, k) == o
    ensures k in KeySet(o) ==>
      var i := IndexOf(o, k); Delete(o, k) == o[..i] + o[i + 1..]
  {
    if o == [] {
    } else if o[0].key == k {
      assert Delete(o, k) == o[1..];
      assert IndexOf(o, k) == 0;
    } else {
      DeleteRemovesOne(o[1..], k);
      var rest := Delete(o[1..], k);
      assert Delete(o, k) == [o[0]] + rest;
      if k in KeySet(o) {
        var i := IndexOf(o[1..], k);
        assert IndexOf(o, k) == i + 1;
        assert rest == o[1..][..i] + o[1..][i + 1..];
        assert o[1..][..i] == o[1..i + 1];
        assert o[1..][i + 1..] == o[i + 2..];
        assert [o[0]] + o[1..i + 1] == o[..i + 1];
      } else {
        assert rest == o[1..];
      }
    }
  }

  /** After `delete o[k]`, `o[k]` is undefined and every other lookup is unchanged. */
  lemma {:induction false} DeleteGet(o: FilterObject, k: string, j: string)
    requires DistinctKeys(o)
    ensures Get(Delete(o, k), j) == if j == k then None else Get(o, j)
  {
    if o != [] {
      if o[0].key == k {
        if j == k { NotInKeySet(o[1..], k); }
      } else {
        DeleteGet(o[1..], k, j);
        assert ([o[0]] + Delete(o[1..], k))[1..] == Delete(o[1..], k);
      }
    }
  }

  /**
   * `o[k] = v`: an existing property keeps its place and takes the new value;
   * a new key is appended at the end.
   */
  function Put(o: FilterObject, k: string, v: Option<ColumnFilter>): (r: FilterObject)
    requires DistinctKeys(o)
    ensures DistinctKeys(r)
    ensures KeySet(r) == KeySet(o) + {k}
  {
    if o == [] then [Entry(k, v)]
    else if o[0].key == k then
      assert ([Entry(k, v)] + o[1..])[1..] == o[1..];
      [Entry(k, v)] + o[1..]
    else
      var rest := Put(o[1..], k, v);
      assert ([o[0]] + rest)[1..] == rest;
      [o[0]] + rest
  }

  /** A new key is appended; an existing key is overwritten in its place. */
  lemma {:induction false} PutPlacement(o: FilterObject, k: string, v: Option<ColumnFilter>)
    requires DistinctKeys(o)
    ensures k !in KeySet(o) ==> Put(o, k, v) == o + [Entry(k, v)]
    ensures k in KeySet(o) ==> Put(o, k, v) == o[IndexOf(o, k) := Entry(k, v)]
  {
    if o == [] {
    } else if o[0].key == k {
      assert [Entry(k, v)] + o[1..] == o[0 := Entry(k, v)];
    } else {
      PutPlacement(o[1..], k, v);
      var rest := Put(o[1..], k, v);
      assert Put(o, k, v) == [o[0]] + rest;
      if k in KeySet(o) {
        var i := IndexOf(o[1..], k);
        assert IndexOf(o, k) == i + 1;
        assert rest == o[1..][i := Entry(k, v)];
        assert [o[0]] + o[1..][i := Entry(k, v)] == o[i + 1 := Entry(k, v)];
      } else {
        assert rest == o[1..] + [Entry(k, v)];
        assert [o[0]] + (o[1..] + [Entry(k, v)]) == o + [Entry(k, v)];
      }
    }
  }

  /** After `o[k] = v`, `o[k]` is `v` and every other lookup is unchanged. */
  lemma {:induction false} PutGet(o: FilterObject, k: string, v: Option<ColumnFilter>, j: string)
    requires DistinctKeys(o)
    ensures Get(Put(o, k, v), j) == if j == k then v else Get(o, j)
  {
    if o == [] {
    } else if o[0].key == k {
      assert ([Entry(k, v)] + o[1..])[1..] == o[1..];
    } else {
      PutGet(o[1..], k, v, j);
      assert ([o[0]] + Put(o[1..], k, v))[1..] == Put(o[1..], k, v);
    }
  }

  /** A key that is absent reads as `undefined`. */
  lemma NotInKeySet(o: FilterObject, k: string)
    requires k !in KeySet(o)
    ensures Get(o, k) == None
  {
  }

  /** The aggregate filter map: every key whose value is a filter, with that filter. */
  function Defined(o: FilterObject): (m: map<string, ColumnFilter>)
    ensures forall k :: k in m <==> Get(o, k).Some?
    ensures forall k :: k in m ==> Get(o, k) == Some(m[k])
  {
    map k | k in KeySet(o) && Get(o, k).Some? :: Get(o, k).value
  }

  /** On the aggregate map, `delete o[k]` removes the key `k`. */
  lemma DefinedAfterDelete(o: FilterObject, k: string)
    requires DistinctKeys(o)
    ensures Defined(Delete(o, k)) == Defined(o) - {k}
  {
    forall j ensures Get(Delete(o, k), j) == if j == k then None else Get(o, j) {
      DeleteGet(o, k, j);
    }
  }

  /** On the aggregate map, `o[k] = f` maps `k` to `f`. */
  lemma DefinedAfterPut(o: FilterObject, k: string, f: ColumnFilter)
    requires DistinctKeys(o)
    ensures Defined(Put(o, k, Some(f))) == Defined(o)[k := f]
  {
    forall j ensures Get(Put(o, k, Some(f)), j) == if j == k then Some(f) else Get(o, j) {
      PutGet(o, k, Some(f), j);
    }
  }

  /** Deleting a property, or storing a filter, never stores `undefined`. */
  lemma {:induction false} NoUndefinedPreserved(o: FilterObject, k: string, f: ColumnFilter)
    requires DistinctKeys(o) && NoUndefined(o)
    ensures NoUndefined(Delete(o, k))
    ensures NoUndefined(Put(o, k, Some(f)))
  {
    if o != [] && o[0].key != k {
      NoUndefinedPreserved(o[1..], k, f);
      assert ([o[0]] + Delete(o[1..], k))[1..] == Delete(o[1..], k);
      assert ([o[0]] + Put(o[1..], k, Some(f)))[1..] == Put(o[1..], k, Some(f));
    } else if o != [] {
      assert ([Entry(k, Some(f))] + o[1..])[1..] == o[1..];
    }
  }

  /**
   * When no property is `undefined`, the aggregate map has exactly the
   * object's keys, so it has as many entries as the object has properties.
   */
  lemma {:induction false} DefinedCoversKeys(o: FilterObject)
    requires DistinctKeys(o) && NoUndefined(o)
    ensures Defined(o).Keys == KeySet(o)
    ensures |Defined(o)| == |o|
  {
    if o == [] {
      assert Defined(o) == map[];
    } else {
      DefinedCoversKeys(o[1..]);
      assert Defined(o).Keys == {o[0].key} + Defined(o[1..]).Keys;
      assert |Defined(o).Keys| == 1 + |Defined(o[1..]).Keys|;
    }
  }
}
