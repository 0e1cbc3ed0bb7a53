/**
 * The body of a request to TheHive's /api/v1/query endpoint: an ordered
 * list of named stages, each carrying the operators it sets, wrapped as
 * {"query": [...]}. Besides the encoder, this module reads a body back,
 * which is how the encoder is shown to keep every stage, in order, and
 * every operator of each stage.
 */
module Query {
  import opened Wrappers
  import opened Text
  import opened Wire

  /** Paging bounds; each is omitted when unset. */
  datatype Scope = Scope(from: Option<int> := None, to: Option<int> := None)

  /**
   * One operand of an operator. `fields` goes out under the member name "-",
   * `scope` under "Scope", and `extraData` stands for a non-nil *struct{},
   * written as {}.
   */
  datatype Filter = Filter(
    field: string,
    fields: map<string, string> := map[],
    value: Option<Json> := None,
    values: seq<Json> := [],
    scope: Option<Scope> := None,
    extraData: bool := false)

  /** One stage. `sort` is the single map of the one-element `_fields` array. */
  datatype SearchQuery = SearchQuery(
    name: string,
    andFilters: Option<seq<Filter>> := None,
    orFilters: Option<seq<Filter>> := None,
    any: Option<Filter> := None,
    not: Option<Filter> := None,
    lt: Option<Filter> := None,
    gt: Option<Filter> := None,
    lte: Option<Filter> := None,
    gte: Option<Filter> := None,
    ne: Option<Filter> := None,
    eq: Option<Filter> := None,
    isFilter: Option<Filter> := None,
    startsWith: Option<Filter> := None,
    endsWith: Option<Filter> := None,
    id: Option<string> := None,
    between: Option<Filter> := None,
    inFilter: Option<Filter> := None,
    contains: Option<string> := None,
    like: Option<Filter> := None,
    matchFilter: Option<Filter> := None,
    sort: Option<map<string, string>> := None,
    scopeFrom: Option<int> := None,
    scopeTo: Option<int> := None,
    idOrName: Option<string> := None)

  // ---------------------------------------------------------------------
  // Encoding

  function ScopeMember(s: Scope, key: string): Option<Json> {
    if key == "from" then OptInt(s.from)
    else if key == "to" then OptInt(s.to)
    else None
  }

  function ScopeJson(s: Scope): Json {
    JObject(map k | k in {"from", "to"} && ScopeMember(s, k).Some? :: ScopeMember(s, k).value)
  }

  /** What encoding/json writes for a filter under `key`; None when the member is omitted. */
  function FilterMember(f: Filter, key: string): Option<Json> {
    if key == "_field" then Some(JString(f.field))
    else if key == "-" then (if |f.fields| == 0 then None else Some(StringMap(f.fields)))
    else if key == "_value" then f.value
    else if key == "_values" then OmitNoItems(f.values)
    else if key == "Scope" then (if f.scope.None? then None else Some(ScopeJson(f.scope.value)))
    else if key == "extraData" then (if f.extraData then Some(JObject(map[])) else None)
    else None
  }

  const FilterKeys: set<string> := {"_field", "-", "_value", "_values", "Scope", "extraData"}

  function FilterJson(f: Filter): Json {
    JObject(map k | k in FilterKeys && FilterMember(f, k).Some? :: FilterMember(f, k).value)
  }

  function FiltersJson(fs: seq<Filter>): (r: seq<Json>)
    ensures |r| == |fs|
    ensures forall i :: 0 <= i < |fs| ==> r[i] == FilterJson(fs[i])
  {
    seq(|fs|, i requires 0 <= i < |fs| => FilterJson(fs[i]))
  }

  function OptFilter(o: Option<Filter>): Option<Json> {
    if o.None? then None else Some(FilterJson(o.value))
  }

  function OptFilters(o: Option<seq<Filter>>): Option<Json> {
    if o.None? then None else Some(JArray(FiltersJson(o.value)))
  }

  function OptSort(o: Option<map<string, string>>): Option<Json> {
    if o.None? then None else Some(JArray([StringMap(o.value)]))
  }

  /** What encoding/json writes for a stage under `key`; None when the member is omitted. */
  function StageMember(q: SearchQuery, key: string): (r: Option<Json>)
    ensures key == "_name" ==> r == Some(JString(q.name))
    ensures r.Some? ==> r.value != JNull
  {
    if key == "_name" then Some(JString(q.name))
    else if key == "_and" then OptFilters(q.andFilters)
    else if key == "_or" then OptFilters(q.orFilters)
    else if key == "_any" then OptFilter(q.any)
    else if key == "_not" then OptFilter(q.not)
    else if key == "_lt" then OptFilter(q.lt)
    else if key == "_gt" then OptFilter(q.gt)
    else if key == "_lte" then OptFilter(q.lte)
    else if key == "_gte" then OptFilter(q.gte)
    else if key == "_ne" then OptFilter(q.ne)
    else if key == "_eq" then OptFilter(q.eq)
    else if key == "_is" then OptFilter(q.isFilter)
    else if key == "_startsWith" then OptFilter(q.startsWith)
    else if key == "_endsWith" then OptFilter(q.endsWith)
    else if key == "_id" then OptString(q.id)
    else if key == "_between" then OptFilter(q.between)
    else if key == "_in" then OptFilter(q.inFilter)
    else if key == "_contains" then OptString(q.contains)
    else if key == "_like" then OptFilter(q.like)
    else if key == "_match" then OptFilter(q.matchFilter)
    else if key == "_fields" then OptSort(q.sort)
    else if key == "from" then OptInt(q.scopeFrom)
    else if key == "to" then OptInt(q.scopeTo)
    else if key == "idOrName" then OptString(q.idOrName)
    else None
  }

  const StageKeys: set<string> := {
    "_name", "_and", "_or", "_any", "_not", "_lt", "_gt", "_lte", "_gte", "_ne", "_eq", "_is",
    "_startsWith", "_endsWith", "_id", "_between", "_in", "_contains", "_like", "_match",
    "_fields", "from", "to", "idOrName"}

  /** The JSON object of one stage: `_name` always, each operator only when set. */
  function StageJson(q: SearchQuery): (r: Json)
    ensures r.JObject? && "_name" in r.members && r.members["_name"] == JString(q.name)
    ensures forall k :: k in r.members ==> r.members[k] != JNull
  {
    JObject(map k | k in StageKeys && StageMember(q, k).Some? :: StageMember(q, k).value)
  }

  function StagesJson(stages: seq<SearchQuery>): (r: seq<Json>)
    ensures |r| == |stages|
    ensures forall i :: 0 <= i < |stages| ==> r[i] == StageJson(stages[i])
  {
    seq(|stages|, i requires 0 <= i < |stages| => StageJson(stages[i]))
  }

  /** createSearchQuery: the stages, in the order given, under "query". */
  function CreateSearchQuery(stages: seq<SearchQuery>): (r: Json)
    ensures r.JObject? && r.members.Keys == {"query"}
    ensures r.members["query"].JArray? && |r.members["query"].items| == |stages|
  {
    JObject(map["query" := JArray(StagesJson(stages))])
  }

  // ---------------------------------------------------------------------
  // Reading a body back

  function ReadString(j: Json): Option<string> {
    if j.JString? then Some(j.s) else None
  }

  function ReadInt(j: Json): Option<int> {
    if j.JInt? then Some(j.i) else None
  }

  function ReadStringMap(j: Json): Option<map<string, string>> {
    if j.JObject? && forall k :: k in j.members ==> j.members[k].JString? then
      Some(map k | k in j.members :: j.members[k].s)
    else None
  }

  function ReadScope(j: Json): Option<Scope> {
    if !j.JObject? then None
    else
      var m := j.members;
      if ("from" in m && !m["from"].JInt?) || ("to" in m && !m["to"].JInt?) then None
      else Some(Scope(
        if "from" in m then Some(m["from"].i) else None,
        if "to" in m then Some(m["to"].i) else None))
  }

  function ReadFilter(j: Json): Option<Filter> {
    if !j.JObject? || "_field" !in j.members || !j.members["_field"].JString? then None
    else
      var m := j.members;
      var fields := if "-" in m then ReadStringMap(m["-"]) else Some(map[]);
      var scope := if "Scope" in m then ReadScope(m["Scope"]) else None;
      if fields.None? || ("Scope" in m && scope.None?) || ("_values" in m && !m["_values"].JArray?) then None
      else Some(Filter(
        m["_field"].s,
        fields.value,
        if "_value" in m then Some(m["_value"]) else None,
        if "_values" in m then m["_values"].items else [],
        scope,
        "extraData" in m))
  }

  /** Reads each element of a list as a filter; None if one of them is not a filter. */
  function ReadFilters(items: seq<Json>): (r: Option<seq<Filter>>)
    ensures r.Some? ==> |r.value| == |items|
  {
    ReadEach(items, ReadFilter)
  }

  /**
   * The member `key` of m read with `read`: Some(None) when absent,
   * Some(Some(v)) when it reads as v, None when it is present but unreadable.
   */
  function ReadOpt<T>(m: map<string, Json>, key: string, read: Json -> Option<T>): Option<Option<T>> {
    if key !in m then Some(None)
    else
      var v := read(m[key]);
      if v.None? then None else Some(Some(v.value))
  }

  function ReadFilterList(j: Json): Option<seq<Filter>> {
    if j.JArray? then ReadFilters(j.items) else None
  }

  function ReadSort(j: Json): Option<map<string, string>> {
    if j.JArray? && |j.items| == 1 then ReadStringMap(j.items[0]) else None
  }

  function ReadStage(j: Json): Option<SearchQuery> {
    if !j.JObject? || "_name" !in j.members || !j.members["_name"].JString? then None
    else
      var m := j.members;
      var andFilters := ReadOpt(m, "_and", ReadFilterList);
      var orFilters := ReadOpt(m, "_or", ReadFilterList);
      var any := ReadOpt(m, "_any", ReadFilter);
      var not := ReadOpt(m, "_not", ReadFilter);
      var lt := ReadOpt(m, "_lt", ReadFilter);
      var gt := ReadOpt(m, "_gt", ReadFilter);
      var lte := ReadOpt(m, "_lte", ReadFilter);
      var gte := ReadOpt(m, "_gte", ReadFilter);
      var ne := ReadOpt(m, "_ne", ReadFilter);
      var eq := ReadOpt(m, "_eq", ReadFilter);
      var isFilter := ReadOpt(m, "_is", ReadFilter);
      var startsWith := ReadOpt(m, "_startsWith", ReadFilter);
      var endsWith := ReadOpt(m, "_endsWith", ReadFilter);
      var id := ReadOpt(m, "_id", ReadString);
      var between := ReadOpt(m, "_between", ReadFilter);
      var inFilter := ReadOpt(m, "_in", ReadFilter);
      var contains := ReadOpt(m, "_contains", ReadString);
      var like := ReadOpt(m, "_like", ReadFilter);
      var matchFilter := ReadOpt(m, "_match", ReadFilter);
      var sort := ReadOpt(m, "_fields", ReadSort);
      var scopeFrom := ReadOpt(m, "from", ReadInt);
      var scopeTo := ReadOpt(m, "to", ReadInt);
      var idOrName := ReadOpt(m, "idOrName", ReadString);
      if andFilters.None? || orFilters.None? || any.None? || not.None? || lt.None? || gt.None?
         || lte.None? || gte.None? || ne.None? || eq.None? || isFilter.None? || startsWith.None?
         || endsWith.None? || id.None? || between.None? || inFilter.None? || contains.None?
         || like.None? || matchFilter.None? || sort.None? || scopeFrom.None? || scopeTo.None?
         || idOrName.None?
      then None
      else Some(SearchQuery(
        m["_name"].s, andFilters.value, orFilters.value, any.value, not.value, lt.value,
        gt.value, lte.value, gte.value, ne.value, eq.value, isFilter.value, startsWith.value,
        endsWith.value, id.value, between.value, inFilter.value, contains.value, like.value,
        matchFilter.value, sort.value, scopeFrom.value, scopeTo.value, idOrName.value))
  }

  /** Reads each element of a list with `read`; None if one of them does not read. */
  function ReadEach<T>(items: seq<Json>, read: Json -> Option<T>): (r: Option<seq<T>>)
    ensures r.Some? ==> |r.value| == |items|
  {
    if |items| == 0 then Some([])
    else
      var head := read(items[0]);
      var tail := ReadEach(items[1..], read);
      if head.None? || tail.None? then None else Some([head.value] + tail.value)
  }

  /** Reads each element of a list as a stage. */
  function ReadStages(items: seq<Json>): (r: Option<seq<SearchQuery>>)
    ensures r.Some? ==> |r.value| == |items|
  {
    ReadEach(items, ReadStage)
  }

  /** The stage list of a query body. */
  function ReadQuery(j: Json): Option<seq<SearchQuery>> {
    if j.JObject? && "query" in j.members && j.members["query"].JArray? then
      ReadStages(j.members["query"].items)
    else None
  }

  // ---------------------------------------------------------------------
  // The encoder loses nothing

  lemma StringMapRoundTrip(m: map<string, string>)
    ensures ReadStringMap(StringMap(m)) == Some(m)
  {
    var r := ReadStringMap(StringMap(m));
    assert r.value == m;
  }

  lemma ScopeRoundTrip(s: Scope)
    ensures ReadScope(ScopeJson(s)) == Some(s)
  {
  }

  /** Every filter is read back from its JSON exactly. */
  lemma FilterRoundTrip(f: Filter)
    ensures ReadFilter(FilterJson(f)) == Some(f)
  {
    if |f.fields| != 0 {
      StringMapRoundTrip(f.fields);
    } else {
      assert f.fields == map[];
    }
    if f.scope.Some? {
      ScopeRoundTrip(f.scope.value);
    }
  }

  lemma FiltersRoundTrip(fs: seq<Filter>)
    ensures ReadFilters(FiltersJson(fs)) == Some(fs)
  {
    var items := FiltersJson(fs);
    forall i | 0 <= i < |items|
      ensures ReadFilter(items[i]) == Some(fs[i])
    {
      FilterRoundTrip(fs[i]);
    }
    ReadEachPointwise(items, fs, ReadFilter);
  }

  /** Reading a member that holds `enc` gives back the value it encodes. */
  lemma ReadOptOf<T>(m: map<string, Json>, key: string, read: Json -> Option<T>, enc: Option<Json>, o: Option<T>)
    requires key in m <==> enc.Some?
    requires key in m ==> m[key] == enc.value
    requires enc.None? <==> o.None?
    requires enc.Some? ==> read(enc.value) == Some(o.value)
    ensures ReadOpt(m, key, read) == Some(o)
  {
  }

  /** A filter operator of a stage is read back from the stage's JSON. */
  lemma StageFilterRead(q: SearchQuery, key: string, o: Option<Filter>)
    requires key in StageKeys
    requires StageMember(q, key) == OptFilter(o)
    ensures ReadOpt(StageJson(q).members, key, ReadFilter) == Some(o)
  {
    var m := StageJson(q).members;
    if o.Some? {
      assert key in m && m[key] == FilterJson(o.value);
      FilterRoundTrip(o.value);
    } else {
      assert key !in m;
    }
  }

  lemma ReadStringMember(m: map<string, Json>, key: string, o: Option<string>)
    requires key in m <==> o.Some?
    requires key in m ==> m[key] == JString(o.value)
    ensures ReadOpt(m, key, ReadString) == Some(o)
  {
  }

  /** The strict ordering operators of a stage are read back from its JSON. */
  lemma StageReadsStrictBounds(q: SearchQuery)
    ensures ReadOpt(StageJson(q).members, "_lt", ReadFilter) == Some(q.lt)
    ensures ReadOpt(StageJson(q).members, "_gt", ReadFilter) == Some(q.gt)
  {
    StageFilterRead(q, "_lt", q.lt);
    StageFilterRead(q, "_gt", q.gt);
  }

  /** The non-strict ordering operators of a stage are read back from its JSON. */
  lemma StageReadsBounds(q: SearchQuery)
    ensures ReadOpt(StageJson(q).members, "_lte", ReadFilter) == Some(q.lte)
    ensures ReadOpt(StageJson(q).members, "_gte", ReadFilter) == Some(q.gte)
  {
    StageFilterRead(q, "_lte", q.lte);
    StageFilterRead(q, "_gte", q.gte);
  }

  /** The equality operators of a stage are read back from its JSON. */
  lemma StageReadsEqualities(q: SearchQuery)
    ensures ReadOpt(StageJson(q).members, "_ne", ReadFilter) == Some(q.ne)
    ensures ReadOpt(StageJson(q).members, "_eq", ReadFilter) == Some(q.eq)
  {
    StageFilterRead(q, "_ne", q.ne);
    StageFilterRead(q, "_eq", q.eq);
  }

  /** The logical operators of a stage are read back from its JSON. */
  lemma StageReadsLogic(q: SearchQuery)
    ensures ReadOpt(StageJson(q).members, "_any", ReadFilter) == Some(q.any)
    ensures ReadOpt(StageJson(q).members, "_not", ReadFilter) == Some(q.not)
  {
    StageFilterRead(q, "_any", q.any);
    StageFilterRead(q, "_not", q.not);
  }

  /** The identity operator of a stage is read back from its JSON. */
  lemma StageReadsIdentity(q: SearchQuery)
    ensures ReadOpt(StageJson(q).members, "_is", ReadFilter) == Some(q.isFilter)
  {
    StageFilterRead(q, "_is", q.isFilter);
  }

  /** The prefix and suffix operators of a stage are read back from its JSON. */
  lemma StageReadsAffixes(q: SearchQuery)
    ensures ReadOpt(StageJson(q).members, "_startsWith", ReadFilter) == Some(q.startsWith)
    ensures ReadOpt(StageJson(q).members, "_endsWith", ReadFilter) == Some(q.endsWith)
  {
    StageFilterRead(q, "_startsWith", q.startsWith);
    StageFilterRead(q, "_endsWith", q.endsWith);
  }

  /** The pattern operators of a stage are read back from its JSON. */
  lemma StageReadsPatterns(q: SearchQuery)
    ensures ReadOpt(StageJson(q).members, "_like", ReadFilter) == Some(q.like)
    ensures ReadOpt(StageJson(q).members, "_match", ReadFilter) == Some(q.matchFilter)
  {
    StageFilterRead(q, "_like", q.like);
    StageFilterRead(q, "_match", q.matchFilter);
  }

  /** The range and membership operators of a stage are read back from its JSON. */
  lemma StageReadsRanges(q: SearchQuery)
    ensures ReadOpt(StageJson(q).members, "_between", ReadFilter) == Some(q.between)
    ensures ReadOpt(StageJson(q).members, "_in", ReadFilter) == Some(q.inFilter)
  {
    StageFilterRead(q, "_between", q.between);
    StageFilterRead(q, "_in", q.inFilter);
  }

  /** The filter lists and the sort map of a stage are read back from its JSON. */
  lemma StageReadsLists(q: SearchQuery)
    ensures ReadOpt(StageJson(q).members, "_and", ReadFilterList) == Some(q.andFilters)
    ensures ReadOpt(StageJson(q).members, "_or", ReadFilterList) == Some(q.orFilters)
    ensures ReadOpt(StageJson(q).members, "_fields", ReadSort) == Some(q.sort)
  {
    var m := StageJson(q).members;
    if q.andFilters.Some? { FiltersRoundTrip(q.andFilters.value); }
    ReadOptOf(m, "_and", ReadFilterList, OptFilters(q.andFilters), q.andFilters);
    if q.orFilters.Some? { FiltersRoundTrip(q.orFilters.value); }
    ReadOptOf(m, "_or", ReadFilterList, OptFilters(q.orFilters), q.orFilters);
    if q.sort.Some? { StringMapRoundTrip(q.sort.value); }
    ReadOptOf(m, "_fields", ReadSort, OptSort(q.sort), q.sort);
  }

  /** The identifiers and paging bounds of a stage are read back from its JSON. */
  lemma StageReadsScalars(q: SearchQuery)
    ensures ReadOpt(StageJson(q).members, "_id", ReadString) == Some(q.id)
    ensures ReadOpt(StageJson(q).members, "_contains", ReadString) == Some(q.contains)
    ensures ReadOpt(StageJson(q).members, "idOrName", ReadString) == Some(q.idOrName)
    ensures ReadOpt(StageJson(q).members, "from", ReadInt) == Some(q.scopeFrom)
    ensures ReadOpt(StageJson(q).members, "to", ReadInt) == Some(q.scopeTo)
  {
    var m := StageJson(q).members;
    ReadStringMember(m, "_id", q.id);
    ReadStringMember(m, "_contains", q.contains);
    ReadStringMember(m, "idOrName", q.idOrName);
    ReadOptOf(m, "from", ReadInt, OptInt(q.scopeFrom), q.scopeFrom);
    ReadOptOf(m, "to", ReadInt, OptInt(q.scopeTo), q.scopeTo);
  }

  /** Every stage, with every operator it sets, is read back from its JSON exactly. */
  lemma StageRoundTrip(q: SearchQuery)
    ensures ReadStage(StageJson(q)) == Some(q)
  {
    StageReadsStrictBounds(q);
    StageReadsBounds(q);
    StageReadsEqualities(q);
    StageReadsLogic(q);
    StageReadsIdentity(q);
    StageReadsAffixes(q);
    StageReadsPatterns(q);
    StageReadsRanges(q);
    StageReadsLists(q);
    StageReadsScalars(q);
  }

  /** A list whose every element reads back as the matching value reads back as the whole list. */
  lemma {:induction false} ReadEachPointwise<T>(items: seq<Json>, xs: seq<T>, read: Json -> Option<T>)
    requires |items| == |xs|
    requires forall i :: 0 <= i < |items| ==> read(items[i]) == Some(xs[i])
    ensures ReadEach(items, read) == Some(xs)
  {
    if |items| > 0 {
      ReadEachPointwise(items[1..], xs[1..], read);
      assert [xs[0]] + xs[1..] == xs;
    }
  }

  lemma StagesRoundTrip(stages: seq<SearchQuery>)
    ensures ReadStages(StagesJson(stages)) == Some(stages)
  {
    var items := StagesJson(stages);
    forall i | 0 <= i < |items|
      ensures ReadStage(items[i]) == Some(stages[i])
    {
      StageRoundTrip(stages[i]);
    }
    ReadEachPointwise(items, stages, ReadStage);
  }

  /**
   * createSearchQuery keeps the stages' count and order exactly and drops
   * no operator: reading the body back gives the stage list it was built from.
   */
  lemma CreateSearchQueryRoundTrip(stages: seq<SearchQuery>)
    ensures ReadQuery(CreateSearchQuery(stages)) == Some(stages)
  {
    StagesRoundTrip(stages);
  }

  /** Two different stage lists never produce the same body. */
  lemma CreateSearchQueryInjective(a: seq<SearchQuery>, b: seq<SearchQuery>)
    requires CreateSearchQuery(a) == CreateSearchQuery(b)
    ensures a == b
  {
    CreateSearchQueryRoundTrip(a);
    CreateSearchQueryRoundTrip(b);
  }

  // ---------------------------------------------------------------------
  // Shapes shared by the stage sequences of the resource helpers

  /** A "sort" stage ordering by one field, with no other operator. */
  predicate SortsBy(q: SearchQuery, field: string, order: string) {
    q == SearchQuery("sort", sort := Some(map[field := order]))
  }

  lemma SortHasOneEntry(q: SearchQuery, field: string, order: string)
    requires SortsBy(q, field, order)
    ensures q.sort.Some? && |q.sort.value| == 1
    ensures q.sort.value.Keys == {field} && q.sort.value[field] == order
  {
  }

  /** A stage that filters with one operator on `field` against a string. */
  predicate EqualsString(f: Option<Filter>, field: string, value: string) {
    f == Some(Filter(field, value := Some(JString(value))))
  }

  /** The namespaced, lower-case name of a custom field in a filter. */
  function CustomFieldPath(field: string): (r: string)
    ensures |r| == 13 + |field| && r[..13] == "customFields."
    ensures IsLower(r[13..])
    ensures r[13..] == Lower(field)
  {
    LowerIsLower(field);
    "customFields." + Lower(field)
  }
}
