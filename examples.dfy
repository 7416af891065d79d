/** Worked requests against the organization adapter's declared fields, sorts
    and facet names. The facet behaviours are kept abstract except where an
    example needs them to contribute nothing. */
module Examples {
  import opened PyValues
  import opened Adapters
  import opened Query

  /** A facet whose filter contributes nothing and which asks for no bucket. */
  function Inert(): Facet
  {
    Facet((name: string, kwargs: Kwargs) => map[], (name: string, args: seq<Param>) => [])
  }

  /** The organization adapter: fuzzy, two weighted text fields, four sorts
      and four facets (in declaration order). The match type and the analyzer
      come from the base adapter class, and the facet and booster behaviours
      are defined elsewhere, so they are parameters. */
  function Organization(matchType: string, analyzer: Option<string>, reuses: Facet, datasets: Facet, followers: Facet,
                        publicServices: Facet, boosters: seq<Booster>): Adapter
  {
    Adapter(
      ["name^6", "description"],
      true,
      matchType,
      analyzer,
      map["name" := "name.raw", "reuses" := "metrics.reuses", "datasets" := "metrics.datasets",
          "followers" := "metrics.followers"],
      [("reuses", reuses), ("datasets", datasets), ("followers", followers), ("public_services", publicServices)],
      boosters)
  }

  /** The expected organization `multi_match`: `i18n_analyzer` unless the
      base class names an analyzer. */
  function OrganizationMatch(matchType: string, analyzer: Option<string>, query: string): MultiMatch
  {
    MultiMatch(query, if analyzer.Some? && analyzer.value != "" then Named(analyzer.value) else I18nAnalyzer, matchType, Some(["name^6", "description"]), Some("AUTO"), Some(2))
  }

  /** A word followed by a `-`word: the first is required, the second
      excluded without its dash. */
  lemma WordThenExcluded(adapter: Adapter, x: string, y: string)
    requires ' ' !in x && ' ' !in y
    requires |x| > 0 && !IsSpace(x[0]) && x[0] != '-'
    requires |y| > 0 && y[0] == '-'
    ensures TextQuery(adapter, PStr(x + [' '] + y)) ==
      Ok(BoolQuery([MultiMatchClause(MultiMatchOf(adapter, [x]))], [MultiMatchClause(MultiMatchOf(adapter, [y[1..]]))], []))
  {
    SplitPrefix(x, y, ' ');
    SplitPrefix(y, "", ' ');
    var pieces := [x, y];
    assert Split(x + [' '] + y, ' ') == pieces;
    assert pieces[..1] == [x] && pieces[..1][..0] == [];
    assert !IsBlank(x) && !IsBlank(y);
    assert StartsWithDash(y) && !StartsWithDash(x);
    assert Included(pieces[..1]) == [x];
    assert Excluded(pieces[..1][..0]) == [];
    assert Excluded(pieces[..1]) == Excluded(pieces[..1][..0]) + [];
    assert Included(pieces) == [x];
    assert Excluded(pieces) == [y[1..]];
    var items := [PStr(x), PStr(y)];
    var made := seq(|pieces|, i requires 0 <= i < |pieces| => PStr(pieces[i]));
    assert made == items;
    assert TermItems(PStr(x + [' '] + y)) == Ok(items);
    assert AllStr(items) && StrValues(items) == pieces;
  }

  /** `q=paris -hotel` requires "paris" and excludes "hotel", both as fuzzy
      `multi_match` clauses over the adapter's fields. */
  lemma ParisWithoutHotel(matchType: string, analyzer: Option<string>, a: Facet, b: Facet, c: Facet, d: Facet, boosters: seq<Booster>)
    ensures var org := Organization(matchType, analyzer, a, b, c, d, boosters);
      TextQuery(org, PStr("paris -hotel")) ==
        Ok(BoolQuery([MultiMatchClause(OrganizationMatch(matchType, analyzer, "paris"))],
                     [MultiMatchClause(OrganizationMatch(matchType, analyzer, "hotel"))], []))
  {
    var org := Organization(matchType, analyzer, a, b, c, d, boosters);
    assert "paris" + [' '] + "-hotel" == "paris -hotel";
    assert "-hotel"[1..] == "hotel";
    WordThenExcluded(org, "paris", "-hotel");
    OneTermMatch(matchType, analyzer, a, b, c, d, boosters, "paris");
    OneTermMatch(matchType, analyzer, a, b, c, d, boosters, "hotel");
  }

  lemma OneTermMatch(matchType: string, analyzer: Option<string>, a: Facet, b: Facet, c: Facet, d: Facet,
                     boosters: seq<Booster>, t: string)
    ensures MultiMatchOf(Organization(matchType, analyzer, a, b, c, d, boosters), [t]) ==
      OrganizationMatch(matchType, analyzer, t)
  {
    assert Join([t], ' ') == t;
  }

  /** `sort=-name&sort=unknown&sort=reuses`: name descending then reuses
      ascending; the undeclared key is dropped. */
  lemma SortByNameThenReuses(matchType: string, analyzer: Option<string>, a: Facet, b: Facet, c: Facet, d: Facet, boosters: seq<Booster>)
    ensures var org := Organization(matchType, analyzer, a, b, c, d, boosters);
      GetSort(org, map["sort" := PList([PStr("-name"), PStr("unknown"), PStr("reuses")])]) ==
        Ok([SortClause("name.raw", Desc), SortClause("metrics.reuses", Asc)])
  {
    var org := Organization(matchType, analyzer, a, b, c, d, boosters);
    var items := [PStr("-name"), PStr("unknown"), PStr("reuses")];
    var entries := ["-name", "unknown", "reuses"];
    assert StrValues(items) == entries;
    assert SortEntries(PList(items)) == Ok(entries);
    assert ParseSortEntry("-name") == ("name", Desc);
    assert ParseSortEntry("unknown") == ("unknown", Asc);
    assert ParseSortEntry("reuses") == ("reuses", Asc);
    assert "unknown" !in org.sorts;
    assert entries[1..] == ["unknown", "reuses"] && entries[1..][1..] == ["reuses"] && entries[1..][1..][1..] == [];
    assert SortClauses(org.sorts, ["reuses"]) == [SortClause("metrics.reuses", Asc)];
    assert SortClauses(org.sorts, ["unknown", "reuses"]) == [SortClause("metrics.reuses", Asc)];
    assert SortClauses(org.sorts, entries) == [SortClause("name.raw", Desc), SortClause("metrics.reuses", Asc)];
    var kwargs := map["sort" := PList(items)];
    assert Get(kwargs, "sort", PList([])) == PList(items);
  }

  /** The facet names in declaration order. */
  lemma OrganizationFacetNames(matchType: string, analyzer: Option<string>, a: Facet, b: Facet, c: Facet, d: Facet, boosters: seq<Booster>)
    ensures FacetNames(Organization(matchType, analyzer, a, b, c, d, boosters).facets) ==
      ["reuses", "datasets", "followers", "public_services"]
  {
    var fs := Organization(matchType, analyzer, a, b, c, d, boosters).facets;
    assert fs[..3] == [fs[0], fs[1], fs[2]] && fs[..3][..2] == [fs[0], fs[1]];
    assert fs[..3][..2][..1] == [fs[0]] && fs[..3][..2][..1][..0] == [];
  }

  /** The organization adapter declares each facet once. */
  lemma OrganizationWellFormed(matchType: string, analyzer: Option<string>, a: Facet, b: Facet, c: Facet, d: Facet, boosters: seq<Booster>)
    ensures Organization(matchType, analyzer, a, b, c, d, boosters).WellFormed()
  {
    OrganizationFacetNames(matchType, analyzer, a, b, c, d, boosters);
  }

  /** Names the request does not mention are all filtered out. */
  lemma {:induction false} NoneRequested(names: seq<string>, items: seq<Param>)
    requires forall i :: 0 <= i < |names| ==> PStr(names[i]) !in items
    ensures FilterNames(names, items) == []
  {
    if |names| > 0 {
      NoneRequested(names[..|names| - 1], items);
    }
  }

  /** A request naming only the first facet selects it alone. */
  lemma FirstFacetOnly(adapter: Adapter, kwargs: Kwargs, x: string)
    requires |adapter.facets| > 0 && adapter.facets[0].0 == x && x != "" && x != "all"
    requires forall i :: 1 <= i < |adapter.facets| ==> adapter.facets[i].0 != x
    requires "facets" in kwargs && kwargs["facets"] == PStr(x)
    ensures FacetsKwargs(adapter, kwargs) == Ok([x])
  {
    var names := FacetNames(adapter.facets);
    var items := [PStr(x)];
    assert names == [x] + names[1..];
    FilterNamesAppend([x], names[1..], items);
    assert FilterNames([x], items) == [x] by {
      assert [x][..0] == [];
    }
    NoneRequested(names[1..], items);
    assert FilterNames(names, items) == [x] + [];
    assert [x] + [] == [x];
    assert Get(kwargs, "facets", PNone) == PStr(x) && Truthy(PStr(x));
    assert PStr("all") !in items;
  }

  /** `facets=reuses` selects the reuses facet alone. */
  lemma OneFacet(matchType: string, analyzer: Option<string>, a: Facet, b: Facet, c: Facet, d: Facet, boosters: seq<Booster>)
    ensures FacetsKwargs(Organization(matchType, analyzer, a, b, c, d, boosters), map["facets" := PStr("reuses")]) == Ok(["reuses"])
  {
    FirstFacetOnly(Organization(matchType, analyzer, a, b, c, d, boosters), map["facets" := PStr("reuses")], "reuses");
  }

  /** `facets=all` selects every facet; `facets=1` is not iterable. */
  lemma AllFacets(matchType: string, analyzer: Option<string>, a: Facet, b: Facet, c: Facet, d: Facet, boosters: seq<Booster>)
    ensures FacetsKwargs(Organization(matchType, analyzer, a, b, c, d, boosters), map["facets" := PStr("all")]) ==
      Ok(["reuses", "datasets", "followers", "public_services"])
    ensures FacetsKwargs(Organization(matchType, analyzer, a, b, c, d, boosters), map["facets" := PInt(1)]) == Err(TypeError)
  {
    OrganizationFacetNames(matchType, analyzer, a, b, c, d, boosters);
  }

  /** Facets whose filters all contribute nothing add no clause. */
  lemma {:induction false} NoFilterClauses(facets: seq<(string, Facet)>, kwargs: Kwargs, key: string)
    requires forall i :: 0 <= i < |facets| ==> facets[i].1.filterFromKwargs(facets[i].0, kwargs) == map[]
    ensures FacetClauses(facets, kwargs, key) == []
  {
    if |facets| > 0 {
      NoFilterClauses(facets[..|facets| - 1], kwargs, key);
    }
  }

  /** Without text and with facets that filter nothing the query is
      `match_all`. */
  lemma EmptyRequestMatchesAll(matchType: string, analyzer: Option<string>, boosters: seq<Booster>)
    ensures QueryOf(Organization(matchType, analyzer, Inert(), Inert(), Inert(), Inert(), boosters), map[]) == Ok(MatchAll)
  {
    var org := Organization(matchType, analyzer, Inert(), Inert(), Inert(), Inert(), boosters);
    var kwargs: Kwargs := map[];
    assert Get(kwargs, "q", PStr("")) == PStr("");
    TextQueryOfString(org, "");
    assert Split("", ' ') == [""] && IsBlank("");
    assert Included([""]) == [] && Excluded([""]) == [];
    NoFilterClauses(org.facets, kwargs, "must");
    NoFilterClauses(org.facets, kwargs, "must_not");
    NoFilterClauses(org.facets, kwargs, "should");
    QueryMatchAll(org, kwargs);
  }

  /** The request `tag=food&page=3&facets=all`. */
  function FoodRequest(): Kwargs
  {
    map["tag" := PStr("food"), "page" := PInt(3), "facets" := PStr("all")]
  }

  /** A request holding at most `key`, `page` and `facets`, linked with one
      extra for `key`, keeps `key` alone. */
  lemma SingleExtra(kwargs: Kwargs, replace: bool, key: string, value: Param)
    requires key != "page" && key != "facets"
    requires forall k :: k in kwargs ==> k == key || k == "page" || k == "facets"
    ensures UrlParams(kwargs, replace, map[key := value]) ==
      map[key := if !replace && key in kwargs then Accumulate(kwargs[key], value) else value]
  {
    var extras := map[key := value];
    var base := UrlBase(kwargs, extras);
    SingleExtraBase(kwargs, key, value);
    var r := UrlParams(kwargs, replace, extras);
    UrlParamsDomain(kwargs, replace, extras);
    assert r.Keys == {key};
    var v := if !replace && key in kwargs then Accumulate(kwargs[key], value) else value;
    assert r[key] == UrlValue(base, replace, extras, key) == v;
    SingleEntry(r, key, v);
  }

  lemma SingleExtraBase(kwargs: Kwargs, key: string, value: Param)
    requires key != "page" && key != "facets"
    requires forall k :: k in kwargs ==> k == key || k == "page" || k == "facets"
    ensures UrlBase(kwargs, map[key := value]).Keys <= {key, "facets"}
    ensures key in UrlBase(kwargs, map[key := value]) <==> key in kwargs
    ensures key in kwargs ==> UrlBase(kwargs, map[key := value])[key] == kwargs[key]
  {
    assert |map[key := value]| == 1;
  }

  lemma SingleEntry(m: Kwargs, key: string, v: Param)
    requires m.Keys == {key} && m[key] == v
    ensures m == map[key := v]
  {
  }

  /** `to_url(tag='drink')`: the tag accumulates; the page and the facets go. */
  lemma TagAccumulates()
    ensures UrlParams(FoodRequest(), false, map["tag" := PStr("drink")]) == map["tag" := PList([PStr("food"), PStr("drink")])]
  {
    SingleExtra(FoodRequest(), false, "tag", PStr("drink"));
  }

  /** `to_url(replace=True, tag='drink')`: the tag is replaced. */
  lemma TagReplaced()
    ensures UrlParams(FoodRequest(), true, map["tag" := PStr("drink")]) == map["tag" := PStr("drink")]
  {
    SingleExtra(FoodRequest(), true, "tag", PStr("drink"));
  }

  /** `to_url()` without extras keeps the page and drops only the facets. */
  lemma PageKept()
    ensures UrlParams(FoodRequest(), false, map[]) == map["tag" := PStr("food"), "page" := PInt(3)]
  {
    var base := UrlBase(FoodRequest(), map[]);
    assert base == FoodRequest();
    assert base.Keys == {"tag", "page", "facets"};
  }

  /** A page as text: `page= 3 ` is the third page, `page=-2` the first. */
  lemma PagingText()
    ensures PageOf(map["page" := PStr(" 3 ")]) == 3
    ensures PageOf(map["page" := PStr("-2")]) == 1
  {
    assert TrimRight(TrimLeft(" 3 ")) == "3" by {
      assert " 3 "[1..] == "3 ";
      assert "3 "[..1] == "3";
    }
    assert "-2"[1..] == "2";
  }

  /** Whitespace may follow the sign: `page=+ 3` is the third page and
      `page= - 5` the first. */
  lemma PagingSignedText()
    ensures PageOf(map["page" := PStr("+ 3")]) == 3
    ensures PageOf(map["page" := PStr(" - 5")]) == 1
  {
    assert "+ 3" == "" + "+" + " " + "3" + "";
    assert " - 5" == " " + "-" + " " + "5" + "";
    assert IsBlank(" ") && IsBlank("");
    assert AllDigits("3") && DigitsValue("3") == 3;
    assert AllDigits("5") && DigitsValue("5") == 5;
    ParseIntForms("", "+", " ", "3", "");
    ParseIntForms(" ", "-", " ", "5", "");
  }

  /** `page_size=0` as text is kept as zero; the integer 0 is falsy and
      gives the default. */
  lemma PageSizeZero()
    ensures PageSizeOf(map["page_size" := PStr("0")]) == 0
    ensures PageSizeOf(map["page_size" := PInt(0)]) == DefaultPageSize
  {
    assert AllDigits("0") && DigitsValue("0") == 0;
  }
}
