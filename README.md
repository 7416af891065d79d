# udata search query model

This project models udata's `SearchQuery`. That class turns the flat map of a
search request's parameters (`kwargs`) and a model's search adapter into the
parts of an Elasticsearch request:

- the page and the page size;
- the sort list;
- the free-text `multi_match` clauses;
- the facet filters merged into a `must` / `must_not` / `should` bool query;
- the aggregation buckets of the selected facets;
- the collapsed query (`match_all` or `bool`), wrapped in `function_score`
  when the adapter has boosters;
- the parameter map behind `to_url`;
- the body `iter` scans, without its aggregations.

The project has four modules:

- `PyValues` (`pyvalues.dfy`) holds request parameter values and the Python
  behaviour the query layer relies on:
  - truthiness and `dict.get`;
  - `int()` on a parameter and `strip()` on a term, both with Python's
    unicode whitespace (non-breaking and ideographic spaces included);
    `int()` also skips whitespace between the sign and the digits, so
    `int(u'- 5')` is -5;
  - `str.split(' ')`, which keeps empty pieces, and `' '.join`;
  - the exceptions a mistyped parameter raises (`TypeError`,
    `AttributeError`, `KeyError`), written as a `Result`.
- `Adapters` (`adapters.dfy`) holds the adapter record (`fields`, `fuzzy`,
  `match_type`, `analyzer`, `sorts`, `facets`, `boosters`) and the clause
  shapes.
  - A facet's `filter_from_kwargs` and `to_aggregations`, and a booster's
    `to_query`, are function-typed fields. Every property below therefore
    holds for every facet and booster.
  - The facets dict is a sequence of `(name, facet)` pairs in its iteration
    order. An adapter is well-formed when no two pairs share a name, as in
    a dict.
- `Query` (`query.dfy`) holds one specification function per operation, the
  lemmas about those functions, and the class `SearchQuery`.
  - The class keeps `adapter`, `kwargs`, `page` and `page_size` as constant
    fields; the source never updates them after `__init__`.
  - Every part the source builds step by step is a method with the
    source's loop: `build_text_query`, `_update_bool_query`,
    `build_aggregation_queries`, `build_aggregations`, `get_query`'s
    clean-up and `to_url`. Each is proved equal to its specification
    function.
  - `build_query`'s output is a plain `Search` record: sort, `from`, `size`,
    aggregations, stored fields and query.
- `Examples` (`examples.dfy`) holds worked requests against the organization
  adapter's declared fields, sorts and facet names.

## Model

| member | source | states |
|---|---|---|
| PyValues.Split | udata/search/query.py:138 | `split(' ')` always yields at least one piece, and no piece contains the separator |
| PyValues.JoinSplit | udata/search/query.py:138 | joining the pieces of `s.split(' ')` with `' '` gives back `s` |
| PyValues.SplitPrefix | udata/search/query.py:138 | a separator-free string is one piece; a separator after it starts the next piece |
| PyValues.SplitJoin | udata/search/query.py:122 | splitting `' '.join(terms)` gives back the terms when none holds a space, so a `multi_match` query string keeps its terms |
| PyValues.Truthy | udata/search/query.py:33 | a parameter is falsy exactly when it is None, `''`, 0, False or `[]` |
| PyValues.IsBlank | udata/search/query.py:140 | a term is blank exactly when `term.strip()` is empty |
| PyValues.ParseInt | udata/search/query.py:32-41 | `int()` on text succeeds exactly when, once stripped and past an optional sign and the whitespace after it, the text is a non-empty run of digits; the value is theirs, negated after `-` |
| PyValues.ParseIntForms | udata/search/query.py:32-41 | every text made of whitespace, an optional `+` or `-`, whitespace, digits and whitespace reads as the digits' value, negated after `-` (`'+ 3'` is 3, `' - 5'` is -5) |
| PyValues.ParseIntOnlyForms | udata/search/query.py:32-41 | conversely every text `int()` accepts has that shape; any other text raises |
| PyValues.ParseIntStrip | udata/search/query.py:32-41 | stripping is idempotent, and `int(s)` equals `int(s.strip())` |
| PyValues.ParseIntBlank | udata/search/query.py:32-41 | `int()` raises (None) on empty or all-whitespace text |
| PyValues.ParseIntDigits | udata/search/query.py:32-41 | a bare run of digits reads as its value |
| PyValues.ParseIntSignedDigits | udata/search/query.py:32-41 | `-` or `+` directly before digits negates or keeps their value |
| PyValues.PyInt | udata/search/query.py:32-41 | `int()` raises (None) on None and lists, keeps an integer, reads `True`/`False` as 1/0, reads text as `ParseInt` does, and reads back the decimal text of any integer |
| PyValues.DigitsValueOfNat | udata/search/query.py:33 | the decimal digits of a natural number read back as that number |
| PyValues.ParseIntToString | udata/search/query.py:33 | `int(str(n)) == n` for every integer, negatives included |
| Adapters.FacetNames | udata/search/query.py:184 | `facets.keys()` has one name per facet, in the facets' order |
| Adapters.FacetNamed | udata/search/query.py:167 | `adapter.facets[name]` is a facet declared under that name, and, when the names are distinct as a dict's keys are, the only one |
| Query.PageOf | udata/search/query.py:32-35 | the page is at least 1; an absent, falsy or unparseable `page` gives 1; a page above 1 is the parsed value |
| Query.PageSizeOf | udata/search/query.py:36-41 | an absent or falsy raw `page_size` gives the default; otherwise the parsed value, unbounded, or the default when `int` raises |
| Query.PageOfNumber | udata/search/query.py:32-35 | a page given as an integer or as its decimal text `n` is `max(n, 1)` |
| Query.PageSizeOfNumber | udata/search/query.py:36-41 | a page size given as decimal text is kept as it is, zero and negatives included; the integer 0 gives the default |
| Query.SortEntries | udata/search/query.py:93-96 | a lone string is a one-entry list; a list of strings is taken entry by entry; a non-string entry raises AttributeError and any other value TypeError |
| Query.ParseSortEntry | udata/search/query.py:95-97 | an entry is descending exactly when it starts with `-`, and then its key is the rest; any other entry is its own key, ascending |
| Query.SortEntryRoundTrip | udata/search/query.py:95-97 | writing a parsed entry back (`-` for descending) gives the entry, and the entry is descending exactly when it starts with `-` |
| Query.SortClauses | udata/search/query.py:98-101 | every clause's field is a declared sort field, and there are never more clauses than entries |
| Query.SortClausesAppend | udata/search/query.py:98-101 | sorting maps each part of the request separately, so request order is kept |
| Query.SortClausesMember | udata/search/query.py:95-101 | a clause appears exactly when some entry's key is declared, with that key's field and the entry's direction |
| Query.SortClausesAllDeclared | udata/search/query.py:98-101 | when every key is declared there is one clause per entry, position by position |
| Query.GetSort | udata/search/query.py:91-101 | fails exactly when the `sort` parameter is neither a string nor a list of strings; no `sort` gives no clause; every field is a declared sort field |
| Query.EmptyBoolQuery | udata/search/query.py:106-107 | the bool query has exactly the three kinds, each an empty list |
| Query.MergeClauses | udata/search/query.py:112-117 | a falsy query becomes the fragment's three lists; a complete query gets each list extended by `new.get(key, [])` and keeps its other keys; a non-empty query missing a kind raises KeyError |
| Query.UpdateBoolQuery | udata/search/query.py:112-117 | the in-place loop of three `extend`s gives `MergeClauses`, the KeyError case included |
| Query.MultiMatchOf | udata/search/query.py:119-132 | the query string splits back into the terms when there is one at least and none holds a space |
| Query.MultiMatchShape | udata/search/query.py:119-132 | for any terms: the query is the terms joined by spaces; the analyzer is the adapter's or `i18n_analyzer`; the type is the adapter's; `fields` is present exactly when the adapter lists fields; `fuzziness` AUTO and `prefix_length` 2 are present exactly when the adapter is fuzzy |
| Query.TextClauses | udata/search/query.py:146-151 | `should` is empty; `must` holds one `multi_match` of the included terms exactly when there are any; `must_not` holds one of the excluded terms exactly when there are any |
| Query.TextClausesBuilt | udata/search/query.py:146-151 | appending each non-empty side's clause to an empty bool query gives the text bool query |
| Query.TextQuery | udata/search/query.py:134-151 | a text query that succeeds has exactly the three clause kinds |
| Query.TermItems | udata/search/query.py:136-138 | a string `q` gives its `split(' ')` pieces, a list is taken as it is, anything else raises TypeError |
| Query.PartitionTerms | udata/search/query.py:139-145 | the term loop raises AttributeError exactly when some term is not a string; otherwise it gives the included and the excluded terms as `Included` and `Excluded` define them |
| Query.TermsAppend | udata/search/query.py:139-145 | both term lists keep the request order |
| Query.TermsPartition | udata/search/query.py:139-145 | a term is included exactly when it is non-blank without a leading `-`; a string is excluded exactly when it is some non-blank `-`term without its dash |
| Query.TextQueryOfString | udata/search/query.py:136-151 | for a text `q`, the `must` query splits into exactly the included space-separated terms, `must_not` into the excluded ones, and `should` is empty |
| Query.AggregationFilters | udata/search/query.py:155-163 | the facet filters form a bool query with exactly the three kinds, empty when there are no facets |
| Query.AggregationFiltersStep | udata/search/query.py:158-162 | merging one more facet's non-empty fragment gives the filters of one more facet; an empty fragment changes nothing |
| Query.FilterNamesMembers | udata/search/query.py:186-189 | a facet name is kept exactly when the request names it |
| Query.FilterNamesAppend | udata/search/query.py:186-189 | the selection keeps the adapter's order |
| Query.FilterNamesDistinct | udata/search/query.py:186-189 | distinct facet names give a selection naming each facet at most once |
| Query.FacetsKwargsDistinct | udata/search/query.py:176-189 | with a well-formed adapter the selection names each facet at most once |
| Query.FacetsKwargs | udata/search/query.py:176-189 | every selected name is an adapter facet; selection fails, with TypeError, exactly for a truthy integer with facets declared; a non-empty selection needs a truthy `facets` |
| Query.FacetSelection | udata/search/query.py:178-189 | `True`, or a string or list naming `'all'`, selects every facet; any other string or list selects the adapter's facet names that it names, in adapter order, and exactly those |
| Query.ArgsOf | udata/search/query.py:168-169 | `*args` of a list is exactly its items and of a string its characters, one per argument; anything else raises TypeError |
| Query.AddEachBucket | udata/search/query.py:171-172 | the loop of `bucket` calls gives the specified buckets |
| Query.AddBucketsShape | udata/search/query.py:171-172 | every item's name becomes a bucket; buckets no item names are kept; each bucket holds the last item of its name |
| Query.AddBucketsAppend | udata/search/query.py:171-172 | bucketing two runs of items is bucketing the first and then the second |
| Query.Buckets | udata/search/query.py:166-173 | no selected facet leaves the buckets as they were; the only error is TypeError |
| Query.BucketsFail | udata/search/query.py:166-169 | building the buckets fails, with TypeError, exactly when some selected facet's parameter cannot be unpacked as `*args` |
| Query.BucketsFlat | udata/search/query.py:166-173 | the facet-by-facet loop buckets all the selected facets' items in one run, in selection order |
| Query.BucketsKeys | udata/search/query.py:166-173 | the buckets are the old ones plus one per name the selected facets return; an old bucket no facet names keeps its value; each bucket holds the last item of its name across the facets |
| Query.AggregationsOf | udata/search/query.py:165-189 | the only error is TypeError; with no facet selected the buckets are left alone |
| Query.Collapse | udata/search/query.py:195-202 | the result is `match_all` exactly when the three lists are empty; otherwise it is a `bool` holding exactly the non-empty clause lists and the other keys, unchanged |
| Query.CollapseClauses | udata/search/query.py:195-202 | the loop that deletes empty lists and sets `has_query` gives `Collapse` |
| Query.QueryOf | udata/search/query.py:191-202 | fails exactly when the text query does, with its error; otherwise the query is `match_all` or `bool` |
| Query.QueryMatchAll | udata/search/query.py:191-202 | the query is `match_all` exactly when neither the text nor any facet filter contributes a clause; otherwise each kind holds the text's clauses followed by the facets' |
| Query.ScoreFunctions | udata/search/query.py:88-89 | one score function per booster, each booster's `to_query()`, in order |
| Query.Boosted | udata/search/query.py:76-84 | without boosters the query is used bare; with boosters it is wrapped in `function_score` with one function per booster, in order |
| Query.Accumulate | udata/search/query.py:210-214 | a list gets the new value appended; a scalar becomes `[old, new]` |
| Query.UrlParams | udata/search/query.py:206-217 | `facets` is never a parameter; without extras the parameters are the request's, less `facets` |
| Query.UrlParamsDomain | udata/search/query.py:206-217 | the URL parameters are the keys of the copied parameters and of the extras, except `facets` |
| Query.UrlParamsShape | udata/search/query.py:206-217 | `facets` never appears; each extra is accumulated onto its existing value (scalar to `[old, new]`, list appended) unless `replace` or it is `page`; other keys are kept unchanged; `page` is kept exactly when no extra is given |
| Query.UrlPage | udata/search/query.py:207-208 | extras send the link back to page 1; without extras the page is kept |
| Query.StripAggregations | udata/search/query.py:54-55 | the body loses `aggregations` and nothing else |
| Query.SearchQuery.constructor | udata/search/query.py:25-41 | keeps the adapter and parameters; `page` and `page_size` are coerced as `PageOf` and `PageSizeOf` say, so the page is at least 1 |
| Query.SearchQuery.BuildTextQuery | udata/search/query.py:134-151 | the term loop and the two appends give `TextQuery` of `q` (default `''`), with TypeError for a non-iterable `q` and AttributeError for a non-string term |
| Query.SearchQuery.BuildAggregationQueries | udata/search/query.py:153-163 | the loop over facets gives the merged filters of every facet, and an empty bool query when there are no facets |
| Query.SearchQuery.BuildAggregations | udata/search/query.py:165-173 | the loop gives the buckets of the selected facets, or the first error |
| Query.SearchQuery.GetQuery | udata/search/query.py:191-202 | text query, facet merge and clean-up give `QueryOf` |
| Query.SearchOfShape | udata/search/query.py:64-89 | the request succeeds exactly when sort, aggregations and query do, and otherwise carries the first error in that order; the window is `from = (page-1)*page_size` with `size = page_size`; no stored fields; the query is bare without boosters, or in `function_score` with each booster's function in order |
| Query.SearchQuery.BuildQuery | udata/search/query.py:64-89 | the steps in the source's order, with `qs[start:start + page_size]` as the window, give `SearchOf` for the object's page and page size |
| Query.SearchQuery.ToUrl | udata/search/query.py:204-217 | the loop over a copy gives `UrlParams`; the object's own parameters are constants, so they are never modified |
| Examples.WordThenExcluded | udata/search/query.py:138-150 | `x -y` requires `x` and excludes `y` |
| Examples.ParisWithoutHotel | udata/core/organization/search.py:18-24 | `q=paris -hotel` on organizations gives fuzzy `multi_match` clauses over `name^6` and `description`, with the base class's analyzer or `i18n_analyzer` |
| Examples.SortByNameThenReuses | udata/core/organization/search.py:25-30 | `-name, unknown, reuses` sorts by `name.raw` descending, then `metrics.reuses` ascending, and drops `unknown` |
| Examples.OrganizationFacetNames | udata/core/organization/search.py:31-36 | the organization facet names, in declaration order |
| Examples.OrganizationWellFormed | udata/core/organization/search.py:31-36 | the organization adapter declares each facet once |
| Examples.FirstFacetOnly | udata/search/query.py:181-189 | a lone string naming only the first facet selects that facet alone |
| Examples.OneFacet | udata/search/query.py:181-189 | `facets=reuses` selects the reuses facet alone |
| Examples.AllFacets | udata/search/query.py:178-189 | `facets=all` selects the four facets; `facets=1` raises TypeError |
| Examples.EmptyRequestMatchesAll | udata/search/query.py:191-202 | an empty request whose facets filter nothing gives `match_all` |
| Examples.SingleExtra | udata/search/query.py:206-217 | one extra on a request holding only that key, `page` and `facets` leaves that key alone, accumulated or replaced |
| Examples.TagAccumulates | udata/search/query.py:209-214 | `tag=food` linked with `tag=drink` gives `tag=[food, drink]` and drops `page` and `facets` |
| Examples.TagReplaced | udata/search/query.py:215-216 | with `replace`, the tag is replaced |
| Examples.PageKept | udata/search/query.py:206-217 | without extras the page is kept and only `facets` goes |
| Examples.PagingText | udata/search/query.py:32-35 | `page=' 3 '` is 3 and `page='-2'` is 1 |
| Examples.PagingSignedText | udata/search/query.py:32-35 | `page='+ 3'` is 3 and `page=' - 5'` is 1 |
| Examples.PageSizeZero | udata/search/query.py:36-41 | `page_size='0'` is 0, and the integer 0 gives the default |

## Left out

- The Elasticsearch client and the Search builder are not modelled: `Search(using=...)`, `qs.execute()`, `es.scan`, and `qs.fields`, `qs.sort`, `qs.aggs`, which become record fields. `execute` and `iter` are modelled only up to the body `iter` scans.
- The exception swallowing and logging around `execute` and `iter` are I/O plumbing and are left out. `SearchIterator` is defined in `udata/search/result.py`, which is not part of this model.
- `get_body` is not defined in `udata/search/query.py`, so the aggregation strip works on a body given as a parameter.
- The adapter lookup through `adapter_catalog` (lines 27-28) and the `adapters` tuple are registry glue: the model takes an adapter record directly.
- `get_filter` and `initial_bool_query` are not used by any modelled operation (the latter is `_bool_query` again).
- The URL encoding with `Href` and `request.base_url` (lines 218-219) is framework code; `to_url` stops at the parameter map. The named `url` and `replace` arguments are not excluded as extra keys.
- The facet and booster behaviours are defined outside `udata/search/query.py`, so they are arbitrary functions of their inputs; the organization adapter's mapping, booster weights and site metrics are configuration.
- `DefaultPageSize`: `DEFAULT_PAGE_SIZE` lives in `udata/search/__init__.py`, which is not part of this model; its value is taken as 20.
- `PyInt`: Python 2's `int()` also accepts non-ASCII decimal digits (Arabic-Indic, fullwidth and others) and floats; the model accepts ASCII digits only and has no floats.
- `Param` has no tuples. A tuple parameter would raise AttributeError on `append` in `to_url`.
- `Query.SearchQuery.BuildQuery`: the Search builder raises ValueError on a negative slice, for negative page sizes. The model keeps the window as computed and does not model that error.
- `Query.UpdateBoolQuery`: on KeyError the source has already extended the kinds before the missing one in place; the model returns only the error.
- Python 2 dict iteration order is arbitrary. The facets, the buckets each facet returns, and the extras of `to_url` are taken in a fixed sequence order; the extras' order does not change the result, since their keys are distinct.
