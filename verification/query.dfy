/**
 * The query the grid hands to its host (`notifyQueryChange`): the defined
 * filter entries projected to `{field, operator, value}`, the sort when
 * there is one, and the fixed first page of 50 rows.
 */
module Queries {
  import opened Options
  import opened GridTypes
  import opened FilterObjects

  const FirstPage: int := 1
  const DefaultPageSize: int := 50

  /**
   * `Object.entries(filters).filter(defined).map(toQueryFilter)`: the entries
   * in key order, skipping those whose value is `undefined`.
   */
  function ProjectFilters(o: FilterObject): (fs: seq<QueryFilter>)
    ensures |fs| <= |o|
    ensures forall qf :: qf in fs ==> qf.field in KeySet(o)
  {
    if o == [] then []
    else
      var head := match o[0].filter
        case None => []
        case Some(f) => [QueryFilter(o[0].key, f.operator, f.value)];
      head + ProjectFilters(o[1..])
  }

  /** The query built from a filter object and a sort (`currentSort || undefined`). */
  function BuildQuery(o: FilterObject, s: Option<Sort>): Query
  {
    Query(ProjectFilters(o), s, FirstPage, DefaultPageSize)
  }

  /** Reads the query's filter list back as a map from field to filter. */
  function FilterMapOf(fs: seq<QueryFilter>): map<string, ColumnFilter>
  {
    if fs == [] then map[]
    else FilterMapOf(fs[1..])[fs[0].field := ColumnFilter(fs[0].operator, fs[0].value)]
  }

  /** No field appears twice in a query's filter list. */
  predicate DistinctFields(fs: seq<QueryFilter>)
  {
    forall i, j :: 0 <= i < j < |fs| ==> fs[i].field != fs[j].field
  }

  /** The aggregate map of an object, from its first property and the rest. */
  lemma DefinedCons(o: FilterObject)
    requires o != [] && DistinctKeys(o)
    ensures o[0].filter.None? ==> Defined(o) == Defined(o[1..])
    ensures o[0].filter.Some? ==> Defined(o) == Defined(o[1..])[o[0].key := o[0].filter.value]
  {
    NotInKeySet(o[1..], o[0].key);
  }

  /** The projection names each field at most once. */
  lemma {:induction false} ProjectFiltersDistinct(o: FilterObject)
    requires DistinctKeys(o)
    ensures DistinctFields(ProjectFilters(o))
  {
    if o != [] {
      ProjectFiltersDistinct(o[1..]);
      var rest := ProjectFilters(o[1..]);
      var fs := ProjectFilters(o);
      if o[0].filter.Some? {
        assert forall i :: 1 <= i < |fs| ==> fs[i] == rest[i - 1];
        assert forall i :: 0 <= i < |rest| ==> rest[i] in rest;
      }
    }
  }

  /**
   * The projection lists each defined entry of the object with its operator
   * and value, and nothing else: read back as a map it is the aggregate
   * filter map.
   */
  lemma {:induction false} ProjectFiltersExact(o: FilterObject)
    requires DistinctKeys(o)
    ensures FilterMapOf(ProjectFilters(o)) == Defined(o)
  {
    if o != [] {
      ProjectFiltersExact(o[1..]);
      DefinedCons(o);
      var fs := ProjectFilters(o);
      if o[0].filter.Some? {
        var f := o[0].filter.value;
        assert fs == [QueryFilter(o[0].key, f.operator, f.value)] + ProjectFilters(o[1..]);
        assert fs[1..] == ProjectFilters(o[1..]);
        assert FilterMapOf(fs) == FilterMapOf(fs[1..])[o[0].key := ColumnFilter(f.operator, f.value)];
      } else {
        assert fs == ProjectFilters(o[1..]);
      }
    }
  }

  /**
   * When no entry is `undefined`, the query carries one filter per key of the
   * object: the header's active-filter count equals the query's filter count.
   */
  lemma {:induction false} ProjectFiltersCount(o: FilterObject)
    requires NoUndefined(o)
    ensures |ProjectFilters(o)| == |o|
  {
    if o != [] {
      ProjectFiltersCount(o[1..]);
    }
  }

  /**
   * Every query has page 1 and page size 50, carries the sort exactly when
   * there is one, and has exactly the defined filter entries.
   */
  lemma QueryShape(o: FilterObject, s: Option<Sort>)
    requires DistinctKeys(o)
    ensures BuildQuery(o, s).page == 1 && BuildQuery(o, s).pageSize == 50
    ensures BuildQuery(o, s).sort.Some? <==> s.Some?
    ensures s.Some? ==> BuildQuery(o, s).sort.value == s.value
    ensures DistinctFields(BuildQuery(o, s).filters)
    ensures forall k :: k in Defined(o) <==> exists i :: 0 <= i < |BuildQuery(o, s).filters| && BuildQuery(o, s).filters[i].field == k
  {
    ProjectFiltersExact(o);
    ProjectFiltersDistinct(o);
    var fs := ProjectFilters(o);
    forall k ensures k in Defined(o) <==> exists i :: 0 <= i < |fs| && fs[i].field == k {
      FilterMapKeys(fs, k);
    }
  }

  /** A field is a key of the read-back map exactly when some list element names it. */
  lemma {:induction false} FilterMapKeys(fs: seq<QueryFilter>, k: string)
    ensures k in FilterMapOf(fs) <==> exists i :: 0 <= i < |fs| && fs[i].field == k
  {
    if fs != [] {
      FilterMapKeys(fs[1..], k);
      if k in FilterMapOf(fs[1..]) {
        var i :| 0 <= i < |fs[1..]| && fs[1..][i].field == k;
        assert fs[i + 1].field == k;
      }
      if exists i :: 0 <= i < |fs| && fs[i].field == k {
        var i :| 0 <= i < |fs| && fs[i].field == k;
        if i > 0 { assert fs[1..][i - 1].field == k; }
      }
    }
  }
}
