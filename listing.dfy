/**
 * The two pieces of the Tasks list/create view of charities/views.py that are not framework
 * calls: the lookup maps `filter_queryset` builds from the query string, and the payload
 * `post` hands to the serializer.
 *
 * The lookup tables `Task.filtering_lookups` and `Task.excluding_lookups` are defined in
 * charities/models.py, which is not part of this model; they are parameters here, as pairs
 * (lookup name, query parameter).
 */
module TaskListing {
  import opened Wrappers

  type LookupTable = seq<(string, string)>
  type Query = map<string, string>

  /** `request.GET.get(key)`: the parameter's value, or None when it is absent. */
  function Param(query: Query, key: string): Option<string>
  {
    if key in query then Some(query[key]) else None
  }

  /** `if param:` — present and not the empty string. */
  predicate Given(query: Query, key: string)
  {
    Param(query, key).Some? && Param(query, key).value != ""
  }

  /**
   * The dictionary the loop over `table` builds: each row whose parameter is given stores that
   * parameter's value under the row's lookup name, a later row overwriting an earlier one.
   */
  function Lookups(table: LookupTable, query: Query): map<string, string>
    decreases |table|
  {
    if table == [] then map[]
    else
      var (name, key) := table[|table| - 1];
      var m := Lookups(table[..|table| - 1], query);
      if Given(query, key) then m[name := query[key]] else m
  }

  /** Tasks.filter_queryset: the lookups it passes to `filter()` and to `exclude()`. */
  method FilterQueryset(filtering: LookupTable, excluding: LookupTable, query: Query)
    returns (filterLookups: map<string, string>, excludeLookups: map<string, string>)
    ensures filterLookups == Lookups(filtering, query)
    ensures excludeLookups == Lookups(excluding, query)
  {
    filterLookups := map[];
    for i := 0 to |filtering|
      invariant filterLookups == Lookups(filtering[..i], query)
    {
      var (name, key) := filtering[i];
      var param := Param(query, key);
      if param.Some? && param.value != "" {
        filterLookups := filterLookups[name := param.value];
      }
      assert filtering[..i + 1][..i] == filtering[..i];
    }
    assert filtering[..|filtering|] == filtering;
    excludeLookups := map[];
    for i := 0 to |excluding|
      invariant excludeLookups == Lookups(excluding[..i], query)
    {
      var (name, key) := excluding[i];
      var param := Param(query, key);
      if param.Some? && param.value != "" {
        excludeLookups := excludeLookups[name := param.value];
      }
      assert excluding[..i + 1][..i] == excluding[..i];
    }
    assert excluding[..|excluding|] == excluding;
  }

  /** A lookup name is in the map exactly when some row with that name has its parameter given. */
  lemma {:induction false} LookupsDomain(table: LookupTable, query: Query, name: string)
    ensures name in Lookups(table, query) <==>
      exists j :: 0 <= j < |table| && table[j].0 == name && Given(query, table[j].1)
    decreases |table|
  {
    if table != [] {
      var n := |table| - 1;
      var init := table[..n];
      LookupsDomain(init, query, name);
      assert forall j :: 0 <= j < n ==> init[j] == table[j];
      if name in Lookups(table, query) && !(table[n].0 == name && Given(query, table[n].1)) {
        var j :| 0 <= j < n && init[j].0 == name && Given(query, init[j].1);
        assert table[j] == init[j];
      }
    }
  }

  /** The value under a name is the parameter of the last row with that name whose parameter is given. */
  lemma {:induction false} LookupsValue(table: LookupTable, query: Query, j: nat)
    requires j < |table| && Given(query, table[j].1)
    requires forall k :: j < k < |table| && table[k].0 == table[j].0 ==> !Given(query, table[k].1)
    ensures table[j].0 in Lookups(table, query)
    ensures Lookups(table, query)[table[j].0] == query[table[j].1]
    decreases |table|
  {
    var n := |table| - 1;
    if j < n {
      var init := table[..n];
      assert init[j] == table[j];
      LookupsValue(init, query, j);
    }
  }

  /**
   * With distinct lookup names, a name is in the map exactly when its parameter is given, and
   * then it maps to that parameter's value.
   */
  lemma LookupsDistinct(table: LookupTable, query: Query, j: nat)
    requires forall i, k :: 0 <= i < k < |table| ==> table[i].0 != table[k].0
    requires j < |table|
    ensures table[j].0 in Lookups(table, query) <==> Given(query, table[j].1)
    ensures Given(query, table[j].1) ==> Lookups(table, query)[table[j].0] == query[table[j].1]
  {
    LookupsDomain(table, query, table[j].0);
    if Given(query, table[j].1) {
      LookupsValue(table, query, j);
    }
  }

  /** Query parameters that no row names do not affect the lookups. */
  lemma {:induction false} LookupsIgnoreOtherParams(table: LookupTable, q1: Query, q2: Query)
    requires forall j :: 0 <= j < |table| ==> Param(q1, table[j].1) == Param(q2, table[j].1)
    ensures Lookups(table, q1) == Lookups(table, q2)
    decreases |table|
  {
    if table != [] {
      var n := |table| - 1;
      var init := table[..n];
      assert forall j :: 0 <= j < n ==> init[j] == table[j];
      LookupsIgnoreOtherParams(init, q1, q2);
      assert Param(q1, table[n].1) == Param(q2, table[n].1);
    }
  }

  const CharityIdField := "charity_id"

  /**
   * Tasks.post: the client's fields with `charity_id` set to the caller's own charity,
   * whatever the client sent under that key.
   */
  function CreationData<V>(payload: map<string, V>, charity: V): (data: map<string, V>)
    ensures data.Keys == payload.Keys + {CharityIdField}
    ensures data[CharityIdField] == charity
    ensures forall k :: k in payload && k != CharityIdField ==> data[k] == payload[k]
  {
    payload[CharityIdField := charity]
  }

  /** A client-supplied `charity_id` has no effect on the data the serializer receives. */
  lemma CreationDataIgnoresClientCharity<V>(payload: map<string, V>, spoofed: V, charity: V)
    ensures CreationData(payload[CharityIdField := spoofed], charity) == CreationData(payload, charity)
    ensures CreationData(payload - {CharityIdField}, charity) == CreationData(payload, charity)
  {
  }
}
