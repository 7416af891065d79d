/** The per-model search adapter as the query layer reads it, and the shapes of
    the request pieces it builds. The facet and booster behaviours live in
    other files of the repository; here they are arrow-typed fields, so every
    property proved about the query layer holds for every facet and booster. */
module Adapters {
  import opened PyValues

  /** An engine payload the query layer passes through without looking inside
      (facet filter clauses, aggregation specs, score functions). */
  datatype Json =
    | JNull
    | JBool(b: bool)
    | JNum(n: int)
    | JStr(s: string)
    | JArr(items: seq<Json>)
    | JObj(members: seq<(string, Json)>)

  datatype Order = Asc | Desc

  /** One `{field: direction}` entry of the sort list. */
  datatype SortClause = SortClause(field: string, order: Order)

  /** The analyzer of a `multi_match`: the adapter's own, or the shared
      `i18n_analyzer` when the adapter declares none. */
  datatype Analyzer = I18nAnalyzer | Named(name: string)

  /** A `multi_match` clause; the optional keys are absent (None) unless set. */
  datatype MultiMatch = MultiMatch(
    query: string,
    analyzer: Analyzer,
    matchType: string,
    fields: Option<seq<string>>,
    fuzziness: Option<string>,
    prefixLength: Option<int>)

  /** An entry of a `must`, `must_not` or `should` list. */
  datatype Clause = MultiMatchClause(mm: MultiMatch) | RawClause(raw: Json)

  /** A dict from clause kind to clause list: a bool query, or a fragment a
      facet contributes (which may lack keys or carry others). */
  type Clauses = map<string, seq<Clause>>

  /** A facet: `filter_from_kwargs(name, kwargs)` gives the clauses it adds
      (an empty map when nothing is selected), `to_aggregations(name, *args)`
      the named aggregation buckets it asks for, in the dict's order. */
  datatype Facet = Facet(
    filterFromKwargs: (string, Kwargs) -> Clauses,
    toAggregations: (string, seq<Param>) -> seq<(string, Json)>)

  /** A booster: `to_query()` gives its score function. */
  datatype Booster = Booster(toQuery: () -> Json)

  /** The adapter descriptor. `sorts` maps a sort key to its indexed field
      (the `.field` of its `Sort`); `facets` lists the facets dict's items in
      its iteration order; `analyzer` is None or "" when not declared. */
  datatype Adapter = Adapter(
    fields: seq<string>,
    fuzzy: bool,
    matchType: string,
    analyzer: Option<string>,
    sorts: map<string, string>,
    facets: seq<(string, Facet)>,
    boosters: seq<Booster>)
  {
    /** The facets are the items of a dict, so no two share a name. */
    predicate WellFormed()
    {
      Distinct(FacetNames(facets))
    }
  }

  predicate Distinct(names: seq<string>)
  {
    forall i, j :: 0 <= i < j < |names| ==> names[i] != names[j]
  }

  /** `adapter.facets.keys()` */
  function FacetNames(facets: seq<(string, Facet)>): (names: seq<string>)
    ensures |names| == |facets|
    ensures forall i :: 0 <= i < |facets| ==> names[i] == facets[i].0
  {
    if |facets| == 0 then [] else FacetNames(facets[..|facets| - 1]) + [facets[|facets| - 1].0]
  }

  /** `adapter.facets[name]`: the facet declared under `name`. */
  function FacetNamed(facets: seq<(string, Facet)>, name: string): (f: Facet)
    requires name in FacetNames(facets)
    ensures exists i :: 0 <= i < |facets| && facets[i] == (name, f)
    ensures Distinct(FacetNames(facets)) ==>
      forall i :: 0 <= i < |facets| && facets[i].0 == name ==> facets[i].1 == f
  {
    if facets[0].0 == name then facets[0].1
    else
      assert FacetNames(facets) == [facets[0].0] + FacetNames(facets[1..]);
      FacetNamed(facets[1..], name)
  }
}
