/** `SearchQuery`: the translation of a request's parameters into the pieces of
    a search request body (sort list, paging window, aggregation buckets, the
    bool query and its function-score envelope), and the parameter map behind
    its URLs. Pure parts of the source are functions over the adapter and the
    parameters; the parts that build their result step by step are methods of
    the class, each proved equal to the function that specifies it. */
module Query {
  import opened PyValues
  import opened Adapters

  /** `DEFAULT_PAGE_SIZE` of the search package. */
  const DefaultPageSize: int := 20

  // =====================================================================
  // Paging (`__init__`)

  /** `max(int(kwargs.get('page', 1) or 1), 1)`, and 1 when `int` raises. */
  function PageOf(kwargs: Kwargs): (page: int)
    ensures page >= 1
    ensures !("page" in kwargs && Truthy(kwargs["page"])) ==> page == 1
    ensures "page" in kwargs && Truthy(kwargs["page"]) && PyInt(kwargs["page"]).None? ==> page == 1
    ensures page > 1 ==> "page" in kwargs && PyInt(kwargs["page"]) == Some(page)
    ensures "page" in kwargs && Truthy(kwargs["page"]) && PyInt(kwargs["page"]).Some? ==>
      page == Max(PyInt(kwargs["page"]).value, 1)
  {
    match PyInt(Or(Get(kwargs, "page", PInt(1)), PInt(1)))
    case Some(n) => Max(n, 1)
    case None => 1
  }

  /** `int(kwargs.get('page_size', DEFAULT) or DEFAULT)`, and the default when
      `int` raises. The falsy test is on the raw value and the parsed number
      is not bounded. */
  function PageSizeOf(kwargs: Kwargs): (size: int)
    ensures !("page_size" in kwargs && Truthy(kwargs["page_size"])) ==> size == DefaultPageSize
    ensures "page_size" in kwargs && Truthy(kwargs["page_size"]) ==>
      size == (match PyInt(kwargs["page_size"]) case Some(n) => n case None => DefaultPageSize)
  {
    match PyInt(Or(Get(kwargs, "page_size", PInt(DefaultPageSize)), PInt(DefaultPageSize)))
    case Some(n) => n
    case None => DefaultPageSize
  }

  /** A page given as a number, or as its decimal text, is used floored at 1. */
  lemma PageOfNumber(kwargs: Kwargs, n: int)
    requires "page" in kwargs && kwargs["page"] in {PInt(n), PStr(IntToString(n))}
    ensures PageOf(kwargs) == Max(n, 1)
  {
    ParseIntToString(n);
    if kwargs["page"] == PStr(IntToString(n)) {
      assert |IntToString(n)| > 0;
    }
  }

  /** A page size given as decimal text is used as it is, zero and negative
      numbers included; the integer 0 is falsy and gives the default. */
  lemma PageSizeOfNumber(kwargs: Kwargs, n: int)
    requires "page_size" in kwargs && kwargs["page_size"] in {PInt(n), PStr(IntToString(n))}
    ensures PageSizeOf(kwargs) == if kwargs["page_size"] == PInt(0) then DefaultPageSize else n
  {
    ParseIntToString(n);
    if kwargs["page_size"] == PStr(IntToString(n)) {
      assert |IntToString(n)| > 0;
    }
  }

  // =====================================================================
  // Sorting (`get_sort`)

  predicate AllStr(items: seq<Param>)
  {
    forall i :: 0 <= i < |items| ==> items[i].PStr?
  }

  function StrValues(items: seq<Param>): (strs: seq<string>)
    requires AllStr(items)
  {
    seq(|items|, i requires 0 <= i < |items| => items[i].s)
  }

  /** One more string item adds its string at the end. */
  lemma StrValuesStep(items: seq<Param>, i: nat)
    requires i < |items| && AllStr(items[..i]) && items[i].PStr?
    ensures AllStr(items[..i + 1])
    ensures StrValues(items[..i + 1]) == StrValues(items[..i]) + [items[i].s]
  {
    assert items[..i + 1] == items[..i] + [items[i]];
  }

  /** The sort entries requested: a lone string is a one-entry list; a
      non-iterable value raises TypeError, and a non-string entry raises
      AttributeError at `startswith`. */
  function SortEntries(p: Param): (r: Result<seq<string>>)
    ensures r.Err? <==> !(p.PStr? || (p.PList? && AllStr(p.items)))
    ensures r.Err? ==> r.error == if p.PList? then AttributeError else TypeError
    ensures r.Ok? && p.PStr? ==> r.value == [p.s]
    ensures r.Ok? && p.PList? ==>
      |r.value| == |p.items| && forall i :: 0 <= i < |p.items| ==> p.items[i] == PStr(r.value[i])
  {
    match p
    case PStr(s) => Ok([s])
    case PList(items) => if AllStr(items) then Ok(StrValues(items)) else Err(AttributeError)
    case _ => Err(TypeError)
  }

  /** `-k` is key `k` descending, any other entry ascending. */
  function ParseSortEntry(entry: string): (r: (string, Order))
    ensures r.1 == Desc <==> StartsWithDash(entry)
    ensures r.1 == Desc ==> entry == "-" + r.0
    ensures r.1 == Asc ==> r.0 == entry
  {
    if |entry| > 0 && entry[0] == '-' then (entry[1..], Desc) else (entry, Asc)
  }

  function UnparseSortEntry(key: string, order: Order): string
  {
    if order == Desc then "-" + key else key
  }

  /** Writing a parsed sort entry back gives the entry. */
  lemma SortEntryRoundTrip(entry: string)
    ensures UnparseSortEntry(ParseSortEntry(entry).0, ParseSortEntry(entry).1) == entry
    ensures ParseSortEntry(entry).1 == Desc <==> StartsWithDash(entry)
  {
    if |entry| > 0 && entry[0] == '-' {
      assert "-" + entry[1..] == entry;
    }
  }

  /** The sort clauses of the entries whose key the adapter declares, in
      request order. */
  function SortClauses(sorts: map<string, string>, entries: seq<string>): (clauses: seq<SortClause>)
    ensures |clauses| <= |entries|
    ensures forall i :: 0 <= i < |clauses| ==> clauses[i].field in sorts.Values
  {
    if |entries| == 0 then []
    else
      var (key, order) := ParseSortEntry(entries[0]);
      (if key in sorts then [SortClause(sorts[key], order)] else []) + SortClauses(sorts, entries[1..])
  }

  /** The sort clauses of the request's `sort` parameter. */
  function GetSort(adapter: Adapter, kwargs: Kwargs): (r: Result<seq<SortClause>>)
    ensures r.Err? <==> SortEntries(Get(kwargs, "sort", PList([]))).Err?
    ensures "sort" !in kwargs ==> r == Ok([])
    ensures r.Ok? ==> forall i :: 0 <= i < |r.value| ==> r.value[i].field in adapter.sorts.Values
  {
    match SortEntries(Get(kwargs, "sort", PList([])))
    case Err(e) => Err(e)
    case Ok(entries) => Ok(SortClauses(adapter.sorts, entries))
  }

  /** Sorting maps each part of the request separately: the order of the
      request is kept. */
  lemma {:induction false} SortClausesAppend(sorts: map<string, string>, a: seq<string>, b: seq<string>)
    ensures SortClauses(sorts, a + b) == SortClauses(sorts, a) + SortClauses(sorts, b)
  {
    if |a| > 0 {
      SortClausesAppend(sorts, a[1..], b);
      assert (a + b)[1..] == a[1..] + b;
    } else {
      assert a + b == b;
    }
  }

  /** A clause is produced exactly for an entry whose key is declared, with
      that key's field and the entry's direction. */
  lemma {:induction false} SortClausesMember(sorts: map<string, string>, entries: seq<string>, c: SortClause)
    ensures c in SortClauses(sorts, entries) <==>
      exists i :: 0 <= i < |entries| && ParseSortEntry(entries[i]).0 in sorts &&
        c == SortClause(sorts[ParseSortEntry(entries[i]).0], ParseSortEntry(entries[i]).1)
  {
    if |entries| > 0 {
      SortClausesMember(sorts, entries[1..], c);
      assert forall i :: 1 <= i < |entries| ==> entries[i] == entries[1..][i - 1];
      if c in SortClauses(sorts, entries[1..]) {
        var j :| 0 <= j < |entries[1..]| && ParseSortEntry(entries[1..][j]).0 in sorts &&
          c == SortClause(sorts[ParseSortEntry(entries[1..][j]).0], ParseSortEntry(entries[1..][j]).1);
        assert entries[1..][j] == entries[j + 1];
      }
    }
  }

  /** When every key is declared, there is one clause per entry, in order. */
  lemma {:induction false} SortClausesAllDeclared(sorts: map<string, string>, entries: seq<string>)
    requires forall i :: 0 <= i < |entries| ==> ParseSortEntry(entries[i]).0 in sorts
    ensures |SortClauses(sorts, entries)| == |entries|
    ensures forall i :: 0 <= i < |entries| ==>
      SortClauses(sorts, entries)[i] == SortClause(sorts[ParseSortEntry(entries[i]).0], ParseSortEntry(entries[i]).1)
  {
    if |entries| > 0 {
      SortClausesAllDeclared(sorts, entries[1..]);
      assert forall i :: 1 <= i < |entries| ==> entries[i] == entries[1..][i - 1];
    }
  }

  // =====================================================================
  // Bool queries (`_bool_query`, `_update_bool_query`)

  /** The clause kinds, in the order the source visits them. */
  const Occurs: seq<string> := ["must", "must_not", "should"]

  function BoolQuery(must: seq<Clause>, mustNot: seq<Clause>, should: seq<Clause>): Clauses
  {
    map["must" := must, "must_not" := mustNot, "should" := should]
  }

  /** Appending to one list of a bool query gives the bool query of the new lists. */
  lemma BoolQueryUpdate(must: seq<Clause>, mustNot: seq<Clause>, should: seq<Clause>, c: Clause)
    ensures BoolQuery(must, mustNot, should)["must" := must + [c]] == BoolQuery(must + [c], mustNot, should)
    ensures BoolQuery(must, mustNot, should)["must_not" := mustNot + [c]] == BoolQuery(must, mustNot + [c], should)
  {
  }

  /** A dict with exactly the three kinds is the bool query of its lists. */
  lemma BoolQueryOf(q: Clauses)
    requires q.Keys == {"must", "must_not", "should"}
    ensures q == BoolQuery(q["must"], q["must_not"], q["should"])
  {
  }

  /** `_bool_query()` */
  function EmptyBoolQuery(): (q: Clauses)
    ensures Complete(q) && q.Keys == {"must", "must_not", "should"}
    ensures q["must"] == [] && q["must_not"] == [] && q["should"] == []
  {
    BoolQuery([], [], [])
  }

  predicate Complete(q: Clauses)
  {
    "must" in q && "must_not" in q && "should" in q
  }

  /** `new.get(key, [])` */
  function GetList(fragment: Clauses, key: string): seq<Clause>
  {
    if key in fragment then fragment[key] else []
  }

  /** `_update_bool_query(query, new)`: a falsy `query` is first replaced by an
      empty bool query; every clause list then gets the fragment's list for
      the same kind appended; a non-empty query lacking a kind raises KeyError. */
  function MergeClauses(query: Clauses, fragment: Clauses): (r: Result<Clauses>)
    ensures r.Err? <==> |query| > 0 && !Complete(query)
    ensures r.Err? ==> r.error == KeyError
    ensures |query| == 0 ==>
      r == Ok(BoolQuery(GetList(fragment, "must"), GetList(fragment, "must_not"), GetList(fragment, "should")))
    ensures Complete(query) ==> r.Ok? && r.value.Keys == query.Keys
    ensures Complete(query) ==>
      && r.value["must"] == query["must"] + GetList(fragment, "must")
      && r.value["must_not"] == query["must_not"] + GetList(fragment, "must_not")
      && r.value["should"] == query["should"] + GetList(fragment, "should")
    ensures Complete(query) ==> forall k :: k in query && k !in Occurs ==> r.value[k] == query[k]
  {
    var q := if |query| == 0 then EmptyBoolQuery() else query;
    if Complete(q) then
      assert |query| == 0 ==>
        q["must" := q["must"] + GetList(fragment, "must")]
         ["must_not" := q["must_not"] + GetList(fragment, "must_not")]
         ["should" := q["should"] + GetList(fragment, "should")] ==
        BoolQuery(GetList(fragment, "must"), GetList(fragment, "must_not"), GetList(fragment, "should")) by {
        if |query| == 0 {
          assert [] + GetList(fragment, "must") == GetList(fragment, "must");
          assert [] + GetList(fragment, "must_not") == GetList(fragment, "must_not");
          assert [] + GetList(fragment, "should") == GetList(fragment, "should");
        }
      }
      Ok(q["must" := q["must"] + GetList(fragment, "must")]
          ["must_not" := q["must_not"] + GetList(fragment, "must_not")]
          ["should" := q["should"] + GetList(fragment, "should")])
    else
      Err(KeyError)
  }

  /** `_update_bool_query`, as the source runs it: one `extend` per kind. */
  method UpdateBoolQuery(query: Clauses, fragment: Clauses) returns (r: Result<Clauses>)
    ensures r == MergeClauses(query, fragment)
  {
    var q := query;
    if |q| == 0 {
      q := EmptyBoolQuery();
    }
    ghost var q0 := q;
    var i := 0;
    while i < |Occurs|
      invariant 0 <= i <= |Occurs|
      invariant q.Keys == q0.Keys
      invariant forall j :: 0 <= j < i ==> Occurs[j] in q0 && q[Occurs[j]] == q0[Occurs[j]] + GetList(fragment, Occurs[j])
      invariant forall k :: k in q0 && k !in Occurs[..i] ==> q[k] == q0[k]
    {
      var key := Occurs[i];
      if key !in q {
        assert key !in q0 && q0 == query;
        return Err(KeyError);
      }
      assert Occurs[..i + 1] == Occurs[..i] + [key];
      q := q[key := q[key] + GetList(fragment, key)];
      i := i + 1;
    }
    assert Occurs[..i] == Occurs;
    assert Occurs[0] in q0 && Occurs[1] in q0 && Occurs[2] in q0;
    ExtendedEach(q0, fragment, q);
    r := Ok(q);
  }

  /** A dict with the same keys as a complete `q0`, whose three clause lists
      are extended by the fragment's and whose other entries are unchanged,
      is the three extends applied to `q0`. */
  lemma ExtendedEach(q0: Clauses, fragment: Clauses, q: Clauses)
    requires Complete(q0) && q.Keys == q0.Keys
    requires forall j :: 0 <= j < |Occurs| ==> q[Occurs[j]] == q0[Occurs[j]] + GetList(fragment, Occurs[j])
    requires forall k :: k in q0 && k !in Occurs ==> q[k] == q0[k]
    ensures q == q0["must" := q0["must"] + GetList(fragment, "must")]
                   ["must_not" := q0["must_not"] + GetList(fragment, "must_not")]
                   ["should" := q0["should"] + GetList(fragment, "should")]
  {
    var e := q0["must" := q0["must"] + GetList(fragment, "must")]
               ["must_not" := q0["must_not"] + GetList(fragment, "must_not")]
               ["should" := q0["should"] + GetList(fragment, "should")];
    assert q["must"] == e["must"] && q["must_not"] == e["must_not"] && q["should"] == e["should"] by {
      assert Occurs[0] == "must" && Occurs[1] == "must_not" && Occurs[2] == "should";
    }
    forall k | k in q
      ensures q[k] == e[k]
    {
      if k !in Occurs {
        assert q[k] == q0[k];
      }
    }
  }

  // =====================================================================
  // Free text (`_multi_match`, `build_text_query`)

  /** `self.adapter.analyzer or i18n_analyzer` */
  function AnalyzerOf(adapter: Adapter): Analyzer
  {
    match adapter.analyzer
    case Some(a) => if a != "" then Named(a) else I18nAnalyzer
    case None => I18nAnalyzer
  }

  /** `_multi_match(terms)`. Its query string splits back into the terms
      when there is at least one and none holds a space. */
  function MultiMatchOf(adapter: Adapter, terms: seq<string>): (m: MultiMatch)
    ensures |terms| >= 1 && (forall i :: 0 <= i < |terms| ==> ' ' !in terms[i]) ==>
      Split(m.query, ' ') == terms
  {
    assert |terms| >= 1 && (forall i :: 0 <= i < |terms| ==> ' ' !in terms[i]) ==>
      Split(Join(terms, ' '), ' ') == terms by {
      if |terms| >= 1 && (forall i :: 0 <= i < |terms| ==> ' ' !in terms[i]) {
        SplitJoin(terms, ' ');
      }
    }
    MultiMatch(
      Join(terms, ' '),
      AnalyzerOf(adapter),
      adapter.matchType,
      if |adapter.fields| > 0 then Some(adapter.fields) else None,
      if adapter.fuzzy then Some("AUTO") else None,
      if adapter.fuzzy then Some(2) else None)
  }

  /** The shape of a `multi_match`, for any terms: the terms joined by
      spaces; the adapter's analyzer unless it declares none; the adapter's
      type; `fields` set exactly when the adapter lists fields; fuzziness
      AUTO with prefix length 2 exactly when it is fuzzy. */
  lemma MultiMatchShape(adapter: Adapter, terms: seq<string>)
    ensures MultiMatchOf(adapter, terms).query == Join(terms, ' ')
    ensures MultiMatchOf(adapter, terms).matchType == adapter.matchType
    ensures MultiMatchOf(adapter, terms).analyzer ==
      if adapter.analyzer.Some? && adapter.analyzer.value != "" then Named(adapter.analyzer.value) else I18nAnalyzer
    ensures MultiMatchOf(adapter, terms).fields.Some? <==> |adapter.fields| > 0
    ensures MultiMatchOf(adapter, terms).fields.Some? ==> MultiMatchOf(adapter, terms).fields.value == adapter.fields
    ensures MultiMatchOf(adapter, terms).fuzziness == (if adapter.fuzzy then Some("AUTO") else None)
    ensures MultiMatchOf(adapter, terms).prefixLength == (if adapter.fuzzy then Some(2) else None)
  {
  }

  predicate StartsWithDash(t: string)
  {
    |t| > 0 && t[0] == '-'
  }

  /** The text terms: a string is split on single spaces; a list is taken as
      it is; anything else is not iterable. */
  function TermItems(q: Param): (r: Result<seq<Param>>)
    ensures r.Err? <==> !(q.PStr? || q.PList?)
    ensures r.Err? ==> r.error == TypeError
    ensures q.PStr? ==> AllStr(r.value) && StrValues(r.value) == Split(q.s, ' ')
    ensures q.PList? ==> r.value == q.items
  {
    match q
    case PStr(s) =>
      var pieces := Split(s, ' ');
      Ok(seq(|pieces|, i requires 0 <= i < |pieces| => PStr(pieces[i])))
    case PList(items) => Ok(items)
    case _ => Err(TypeError)
  }

  /** The non-blank terms without a leading `-`, in order. */
  function Included(terms: seq<string>): seq<string>
  {
    if |terms| == 0 then []
    else
      var t := terms[|terms| - 1];
      Included(terms[..|terms| - 1]) + (if !IsBlank(t) && !StartsWithDash(t) then [t] else [])
  }

  /** The non-blank terms with a leading `-`, that character removed, in order. */
  function Excluded(terms: seq<string>): seq<string>
  {
    if |terms| == 0 then []
    else
      var t := terms[|terms| - 1];
      Excluded(terms[..|terms| - 1]) + (if !IsBlank(t) && StartsWithDash(t) then [t[1..]] else [])
  }

  /** The bool query of a list of text terms. */
  function TextClauses(adapter: Adapter, terms: seq<string>): (q: Clauses)
    ensures q.Keys == {"must", "must_not", "should"}
    ensures q["should"] == []
    ensures |q["must"]| == (if Included(terms) == [] then 0 else 1)
    ensures |q["must_not"]| == (if Excluded(terms) == [] then 0 else 1)
    ensures Included(terms) != [] ==> q["must"][0] == MultiMatchClause(MultiMatchOf(adapter, Included(terms)))
    ensures Excluded(terms) != [] ==> q["must_not"][0] == MultiMatchClause(MultiMatchOf(adapter, Excluded(terms)))
  {
    var inc := Included(terms);
    var exc := Excluded(terms);
    BoolQuery(
      if inc != [] then [MultiMatchClause(MultiMatchOf(adapter, inc))] else [],
      if exc != [] then [MultiMatchClause(MultiMatchOf(adapter, exc))] else [],
      [])
  }

  /** The bool query of the terms is what appending each non-empty side's
      clause to an empty bool query gives. */
  lemma TextClausesBuilt(adapter: Adapter, terms: seq<string>)
    ensures var c := MultiMatchClause(MultiMatchOf(adapter, Included(terms)));
      var d := MultiMatchClause(MultiMatchOf(adapter, Excluded(terms)));
      var q0 := EmptyBoolQuery();
      var q1 := if Included(terms) != [] then q0["must" := q0["must"] + [c]] else q0;
      var q2 := if Excluded(terms) != [] then q1["must_not" := q1["must_not"] + [d]] else q1;
      q2 == TextClauses(adapter, terms)
  {
    var c := MultiMatchClause(MultiMatchOf(adapter, Included(terms)));
    var d := MultiMatchClause(MultiMatchOf(adapter, Excluded(terms)));
    var must: seq<Clause> := if Included(terms) != [] then [c] else [];
    BoolQueryUpdate([], [], [], c);
    BoolQueryUpdate(must, [], [], d);
    assert [] + [c] == [c] && [] + [d] == [d];
  }

  /** The term loop of `build_text_query()`: each non-blank term is appended
      to `excluded` without its `-`, or else to `included`; a term that is not
      a string raises AttributeError at `strip`. */
  method PartitionTerms(items: seq<Param>) returns (r: Result<(seq<string>, seq<string>)>)
    ensures r.Err? <==> !AllStr(items)
    ensures r.Err? ==> r.error == AttributeError
    ensures r.Ok? ==> r.value == (Included(StrValues(items)), Excluded(StrValues(items)))
  {
    var included: seq<string> := [];
    var excluded: seq<string> := [];
    var i := 0;
    while i < |items|
      invariant 0 <= i <= |items|
      invariant AllStr(items[..i])
      invariant included == Included(StrValues(items[..i]))
      invariant excluded == Excluded(StrValues(items[..i]))
    {
      if !items[i].PStr? {
        assert !AllStr(items) by {
          assert !items[i].PStr?;
        }
        return Err(AttributeError);
      }
      var term := items[i].s;
      StrValuesStep(items, i);
      TermsStep(StrValues(items[..i]), StrValues(items[..i + 1]), term);
      if IsBlank(term) {
      } else if term[0] == '-' {
        excluded := excluded + [term[1..]];
      } else {
        included := included + [term];
      }
      i := i + 1;
    }
    assert items[..i] == items;
    r := Ok((included, excluded));
  }

  /** `build_text_query()` on the `q` parameter. */
  function TextQuery(adapter: Adapter, q: Param): (r: Result<Clauses>)
    ensures r.Ok? ==> r.value.Keys == {"must", "must_not", "should"}
  {
    match TermItems(q)
    case Err(e) => Err(e)
    case Ok(items) => if AllStr(items) then Ok(TextClauses(adapter, StrValues(items))) else Err(AttributeError)
  }

  /** One more term goes to at most one of the two lists. */
  lemma TermsStep(terms: seq<string>, more: seq<string>, t: string)
    requires more == terms + [t]
    ensures Included(more) == Included(terms) + if !IsBlank(t) && !StartsWithDash(t) then [t] else []
    ensures Excluded(more) == Excluded(terms) + if !IsBlank(t) && StartsWithDash(t) then [t[1..]] else []
  {
    assert more[..|more| - 1] == terms;
  }

  /** Both term lists keep the request order: they map each part separately. */
  lemma {:induction false} TermsAppend(a: seq<string>, b: seq<string>)
    ensures Included(a + b) == Included(a) + Included(b)
    ensures Excluded(a + b) == Excluded(a) + Excluded(b)
  {
    if |b| > 0 {
      TermsAppend(a, b[..|b| - 1]);
      assert (a + b)[..|a + b| - 1] == a + b[..|b| - 1];
    } else {
      assert a + b == a;
    }
  }

  /** Every non-blank term goes to exactly one side: included as it is unless
      it starts with `-`, excluded without its `-` otherwise. */
  lemma {:induction false} TermsPartition(terms: seq<string>)
    ensures forall t :: t in Included(terms) <==> t in terms && !IsBlank(t) && !StartsWithDash(t)
    ensures forall e :: e in Excluded(terms) <==>
      exists i :: 0 <= i < |terms| && !IsBlank(terms[i]) && StartsWithDash(terms[i]) && e == terms[i][1..]
  {
    if |terms| > 0 {
      var init := terms[..|terms| - 1];
      TermsPartition(init);
      assert terms == init + [terms[|terms| - 1]];
      assert forall i :: 0 <= i < |init| ==> init[i] == terms[i];
      forall e | e in Excluded(terms)
        ensures exists i :: 0 <= i < |terms| && !IsBlank(terms[i]) && StartsWithDash(terms[i]) && e == terms[i][1..]
      {
        if e in Excluded(init) {
          var i :| 0 <= i < |init| && !IsBlank(init[i]) && StartsWithDash(init[i]) && e == init[i][1..];
          assert terms[i] == init[i];
        }
      }
      forall e | exists i :: 0 <= i < |terms| && !IsBlank(terms[i]) && StartsWithDash(terms[i]) && e == terms[i][1..]
        ensures e in Excluded(terms)
      {
        var i :| 0 <= i < |terms| && !IsBlank(terms[i]) && StartsWithDash(terms[i]) && e == terms[i][1..];
        if i < |init| {
          assert init[i] == terms[i];
        }
      }
    }
  }

  /** For a text `q`, the `must` clause's query string splits back into
      exactly the included terms, and the `must_not` one into the excluded
      terms; `should` stays empty. */
  lemma TextQueryOfString(adapter: Adapter, s: string)
    ensures TextQuery(adapter, PStr(s)).Ok?
    ensures var q := TextQuery(adapter, PStr(s)).value;
      && q["should"] == []
      && (q["must"] == [] <==> Included(Split(s, ' ')) == [])
      && (q["must_not"] == [] <==> Excluded(Split(s, ' ')) == [])
      && (q["must"] != [] ==>
            q["must"][0].MultiMatchClause? && Split(q["must"][0].mm.query, ' ') == Included(Split(s, ' ')))
      && (q["must_not"] != [] ==>
            q["must_not"][0].MultiMatchClause? && Split(q["must_not"][0].mm.query, ' ') == Excluded(Split(s, ' ')))
  {
    var pieces := Split(s, ' ');
    var items := seq(|pieces|, i requires 0 <= i < |pieces| => PStr(pieces[i]));
    assert StrValues(items) == pieces;
    TermsPartition(pieces);
    var inc := Included(pieces);
    var exc := Excluded(pieces);
    assert forall i :: 0 <= i < |inc| ==> ' ' !in inc[i] by {
      forall i | 0 <= i < |inc| ensures ' ' !in inc[i] {
        assert inc[i] in inc;
      }
    }
    assert forall i :: 0 <= i < |exc| ==> ' ' !in exc[i] by {
      forall i | 0 <= i < |exc| ensures ' ' !in exc[i] {
        assert exc[i] in exc;
        var j :| 0 <= j < |pieces| && !IsBlank(pieces[j]) && StartsWithDash(pieces[j]) && exc[i] == pieces[j][1..];
        assert forall c :: c in pieces[j][1..] ==> c in pieces[j];
      }
    }
  }

  // =====================================================================
  // Facet filters (`build_aggregation_queries`)

  /** The clauses of one kind that the facets' filters contribute, facet by
      facet in the adapter's order. */
  function FacetClauses(facets: seq<(string, Facet)>, kwargs: Kwargs, key: string): seq<Clause>
  {
    if |facets| == 0 then []
    else
      var (name, facet) := facets[|facets| - 1];
      FacetClauses(facets[..|facets| - 1], kwargs, key) + GetList(facet.filterFromKwargs(name, kwargs), key)
  }

  /** The bool query merging every facet's filter fragment. */
  function AggregationFilters(facets: seq<(string, Facet)>, kwargs: Kwargs): (q: Clauses)
    ensures q.Keys == {"must", "must_not", "should"}
    ensures |facets| == 0 ==> q == EmptyBoolQuery()
  {
    BoolQuery(FacetClauses(facets, kwargs, "must"), FacetClauses(facets, kwargs, "must_not"),
      FacetClauses(facets, kwargs, "should"))
  }

  /** One more facet: its fragment merged into the filters so far gives the
      filters of one more facet; an empty fragment changes nothing. */
  lemma AggregationFiltersStep(facets: seq<(string, Facet)>, i: nat, kwargs: Kwargs)
    requires i < |facets|
    ensures var fragment := facets[i].1.filterFromKwargs(facets[i].0, kwargs);
      && (|fragment| != 0 ==>
            MergeClauses(AggregationFilters(facets[..i], kwargs), fragment) == Ok(AggregationFilters(facets[..i + 1], kwargs)))
      && (|fragment| == 0 ==> AggregationFilters(facets[..i], kwargs) == AggregationFilters(facets[..i + 1], kwargs))
  {
    var fragment := facets[i].1.filterFromKwargs(facets[i].0, kwargs);
    assert facets[..i + 1][..i] == facets[..i];
    var before := AggregationFilters(facets[..i], kwargs);
    if |fragment| == 0 {
      assert GetList(fragment, "must") == [] && GetList(fragment, "must_not") == [] && GetList(fragment, "should") == [];
      assert FacetClauses(facets[..i], kwargs, "must") + [] == FacetClauses(facets[..i], kwargs, "must");
      assert FacetClauses(facets[..i], kwargs, "must_not") + [] == FacetClauses(facets[..i], kwargs, "must_not");
      assert FacetClauses(facets[..i], kwargs, "should") + [] == FacetClauses(facets[..i], kwargs, "should");
    } else {
      BoolQueryOf(MergeClauses(before, fragment).value);
    }
  }

  // =====================================================================
  // Facet selection (`facets_kwargs`)

  /** The names that occur as strings among the requested items, in the
      order of `names`. */
  function FilterNames(names: seq<string>, items: seq<Param>): seq<string>
  {
    if |names| == 0 then []
    else
      var f := names[|names| - 1];
      FilterNames(names[..|names| - 1], items) + (if PStr(f) in items then [f] else [])
  }

  /** A name is kept exactly when it is requested. */
  lemma {:induction false} FilterNamesMembers(names: seq<string>, items: seq<Param>)
    ensures forall f :: f in FilterNames(names, items) <==> f in names && PStr(f) in items
  {
    if |names| > 0 {
      var init := names[..|names| - 1];
      FilterNamesMembers(init, items);
      assert names == init + [names[|names| - 1]];
    }
  }

  /** `facets_kwargs`: no facets when the adapter has none or `facets` is
      falsy; a lone string is a one-item list; `True` or a list holding
      `'all'` selects every facet; otherwise the adapter's facets named in the
      request, in adapter order. A truthy integer is not iterable. */
  function FacetsKwargs(adapter: Adapter, kwargs: Kwargs): (r: Result<seq<string>>)
    ensures r.Ok? ==> forall f :: f in r.value ==> f in FacetNames(adapter.facets)
    ensures r.Err? <==>
      |adapter.facets| > 0 && "facets" in kwargs && kwargs["facets"].PInt? && kwargs["facets"].i != 0
    ensures r.Err? ==> r.error == TypeError
    ensures r.Ok? && r.value != [] ==> "facets" in kwargs && Truthy(kwargs["facets"])
  {
    var names := FacetNames(adapter.facets);
    var facets := Get(kwargs, "facets", PNone);
    if |adapter.facets| == 0 || !Truthy(facets) then Ok([])
    else
      var requested := if facets.PStr? then PList([facets]) else facets;
      if requested == PBool(true) then Ok(names)
      else if !requested.PList? then Err(TypeError)
      else if PStr("all") in requested.items then Ok(names)
      else
        FilterNamesMembers(names, requested.items);
        Ok(FilterNames(names, requested.items))
  }

  /** Selection keeps the adapter's order. */
  lemma {:induction false} FilterNamesAppend(a: seq<string>, b: seq<string>, items: seq<Param>)
    ensures FilterNames(a + b, items) == FilterNames(a, items) + FilterNames(b, items)
  {
    if |b| > 0 {
      FilterNamesAppend(a, b[..|b| - 1], items);
      assert (a + b)[..|a + b| - 1] == a + b[..|b| - 1];
    } else {
      assert a + b == a;
    }
  }

  /** Facet names are dict keys, so distinct; the selection then names each
      facet at most once. */
  lemma {:induction false} FilterNamesDistinct(names: seq<string>, items: seq<Param>)
    requires Distinct(names)
    ensures Distinct(FilterNames(names, items))
  {
    if |names| > 0 {
      var init := names[..|names| - 1];
      var f := names[|names| - 1];
      FilterNamesDistinct(init, items);
      FilterNamesMembers(init, items);
    }
  }

  /** With a well-formed adapter, the selected facets are distinct, so each
      facet contributes its filter and its aggregations once. */
  lemma FacetsKwargsDistinct(adapter: Adapter, kwargs: Kwargs)
    requires adapter.WellFormed()
    ensures FacetsKwargs(adapter, kwargs).Ok? ==> Distinct(FacetsKwargs(adapter, kwargs).value)
  {
    var facets := Get(kwargs, "facets", PNone);
    var requested := if facets.PStr? then PList([facets]) else facets;
    if requested.PList? {
      FilterNamesDistinct(FacetNames(adapter.facets), requested.items);
    }
  }

  /** The requested facet names as the request gives them. */
  function RequestedFacets(p: Param): seq<Param>
  {
    match p
    case PStr(s) => [p]
    case PList(items) => items
    case _ => []
  }

  /** With facets declared: `True` or a request naming `'all'` selects every
      facet; a string or list request without `'all'` selects the declared
      facets it names, in the adapter's order. */
  lemma FacetSelection(adapter: Adapter, kwargs: Kwargs)
    requires |adapter.facets| > 0 && "facets" in kwargs && Truthy(kwargs["facets"])
    ensures var p := kwargs["facets"];
      (p == PBool(true) || ((p.PStr? || p.PList?) && PStr("all") in RequestedFacets(p))) ==>
        FacetsKwargs(adapter, kwargs) == Ok(FacetNames(adapter.facets))
    ensures var p := kwargs["facets"];
      (p.PStr? || p.PList?) && PStr("all") !in RequestedFacets(p) ==>
        FacetsKwargs(adapter, kwargs) == Ok(FilterNames(FacetNames(adapter.facets), RequestedFacets(p))) &&
        forall f :: f in FacetsKwargs(adapter, kwargs).value <==>
          f in FacetNames(adapter.facets) && PStr(f) in RequestedFacets(p)
  {
    var p := kwargs["facets"];
    if p.PStr? || p.PList? {
      FilterNamesMembers(FacetNames(adapter.facets), RequestedFacets(p));
    }
  }

  // =====================================================================
  // Aggregations (`build_aggregations`)

  /** `*args` of `kwargs.get(name, [])`: a list's items, a string's
      characters; anything else is not iterable. */
  function ArgsOf(p: Param): (r: Result<seq<Param>>)
    ensures r.Err? <==> !(p.PList? || p.PStr?)
    ensures r.Err? ==> r.error == TypeError
    ensures p.PList? ==> r == Ok(p.items)
    ensures p.PStr? ==> |r.value| == |p.s| && forall i :: 0 <= i < |p.s| ==> r.value[i] == PStr([p.s[i]])
  {
    match p
    case PList(items) => Ok(items)
    case PStr(s) => Ok(seq(|s|, i requires 0 <= i < |s| => PStr([s[i]])))
    case _ => Err(TypeError)
  }

  /** `qs.aggs.bucket(name, agg)` for each item in order. */
  function AddBuckets(aggs: map<string, Json>, items: seq<(string, Json)>): map<string, Json>
    decreases |items|
  {
    if |items| == 0 then aggs else AddBuckets(aggs[items[0].0 := items[0].1], items[1..])
  }

  /** The inner loop of `build_aggregations`: one `bucket` call per item. */
  method AddEachBucket(aggs0: map<string, Json>, items: seq<(string, Json)>) returns (aggs: map<string, Json>)
    ensures aggs == AddBuckets(aggs0, items)
  {
    aggs := aggs0;
    var j := 0;
    while j < |items|
      invariant 0 <= j <= |items|
      invariant AddBuckets(aggs0, items) == AddBuckets(aggs, items[j..])
    {
      assert items[j..][0] == items[j] && items[j..][1..] == items[j + 1..];
      aggs := aggs[items[j].0 := items[j].1];
      j := j + 1;
    }
  }

  /** Every item's name becomes a bucket; buckets no item names are kept;
      a bucket holds the last item of its name. */
  lemma {:induction false} AddBucketsShape(aggs: map<string, Json>, items: seq<(string, Json)>)
    ensures AddBuckets(aggs, items).Keys == aggs.Keys + (set i | 0 <= i < |items| :: items[i].0)
    ensures forall k :: k in aggs && (forall i :: 0 <= i < |items| ==> items[i].0 != k) ==>
      AddBuckets(aggs, items)[k] == aggs[k]
    ensures forall i :: 0 <= i < |items| && LastOfName(items, i) ==> AddBuckets(aggs, items)[items[i].0] == items[i].1
    decreases |items|
  {
    if |items| > 0 {
      var rest := items[1..];
      AddBucketsShape(aggs[items[0].0 := items[0].1], rest);
      assert forall i :: 1 <= i < |items| ==> items[i] == rest[i - 1];
      assert (set i | 0 <= i < |items| :: items[i].0) == {items[0].0} + (set i | 0 <= i < |rest| :: rest[i].0);
      forall i | 0 <= i < |items| && LastOfName(items, i)
        ensures AddBuckets(aggs, items)[items[i].0] == items[i].1
      {
        if i > 0 {
          assert LastOfName(rest, i - 1) by {
            forall j | i - 1 < j < |rest| ensures rest[j].0 != rest[i - 1].0 {
              assert rest[j] == items[j + 1];
            }
          }
        } else {
          forall j | 0 <= j < |rest| ensures rest[j].0 != items[0].0 {
            assert rest[j] == items[j + 1];
          }
        }
      }
    }
  }

  /** No later item has the name of item `i`. */
  predicate LastOfName(items: seq<(string, Json)>, i: int)
    requires 0 <= i < |items|
  {
    forall j :: i < j < |items| ==> items[j].0 != items[i].0
  }

  /** Bucketing two runs of items is bucketing the first, then the second. */
  lemma {:induction false} AddBucketsAppend(aggs: map<string, Json>, a: seq<(string, Json)>, b: seq<(string, Json)>)
    ensures AddBuckets(aggs, a + b) == AddBuckets(AddBuckets(aggs, a), b)
    decreases |a|
  {
    if |a| > 0 {
      AddBucketsAppend(aggs[a[0].0 := a[0].1], a[1..], b);
      assert (a + b)[0] == a[0] && (a + b)[1..] == a[1..] + b;
    } else {
      assert a + b == b;
    }
  }

  /** The buckets of the selected facets, one facet after the other; an
      argument that cannot be unpacked raises TypeError. */
  function Buckets(facets: seq<(string, Facet)>, kwargs: Kwargs, names: seq<string>, aggs: map<string, Json>)
    : (r: Result<map<string, Json>>)
    requires forall n :: n in names ==> n in FacetNames(facets)
    ensures names == [] ==> r == Ok(aggs)
    ensures r.Err? ==> r.error == TypeError
  {
    if |names| == 0 then Ok(aggs)
    else
      match ArgsOf(Get(kwargs, names[0], PList([])))
      case Err(e) => Err(e)
      case Ok(args) =>
        var items := FacetNamed(facets, names[0]).toAggregations(names[0], args);
        Buckets(facets, kwargs, names[1..], AddBuckets(aggs, items))
  }

  /** One facet's step of `Buckets`. */
  lemma BucketsStep(facets: seq<(string, Facet)>, kwargs: Kwargs, names: seq<string>, aggs: map<string, Json>)
    requires forall n :: n in names ==> n in FacetNames(facets)
    requires |names| > 0
    ensures var args := ArgsOf(Get(kwargs, names[0], PList([])));
      args.Err? ==> Buckets(facets, kwargs, names, aggs) == Err(args.error)
    ensures var args := ArgsOf(Get(kwargs, names[0], PList([])));
      args.Ok? ==>
        Buckets(facets, kwargs, names, aggs) ==
          Buckets(facets, kwargs, names[1..], AddBuckets(aggs, FacetNamed(facets, names[0]).toAggregations(names[0], args.value)))
  {
  }

  /** The aggregation buckets `build_aggregations` adds to `aggs`; with no
      facet selected they are left alone. */
  function AggregationsOf(adapter: Adapter, kwargs: Kwargs, aggs: map<string, Json>): (r: Result<map<string, Json>>)
    ensures r.Err? ==> r.error == TypeError
    ensures FacetsKwargs(adapter, kwargs) == Ok([]) ==> r == Ok(aggs)
  {
    match FacetsKwargs(adapter, kwargs)
    case Err(e) => Err(e)
    case Ok(names) => Buckets(adapter.facets, kwargs, names, aggs)
  }

  /** Building the buckets fails exactly when some selected facet's parameter
      cannot be unpacked as arguments. */
  lemma {:induction false} BucketsFail(facets: seq<(string, Facet)>, kwargs: Kwargs, names: seq<string>, aggs: map<string, Json>)
    requires forall n :: n in names ==> n in FacetNames(facets)
    ensures Buckets(facets, kwargs, names, aggs).Err? <==>
      exists i :: 0 <= i < |names| && ArgsOf(Get(kwargs, names[i], PList([]))).Err?
    ensures Buckets(facets, kwargs, names, aggs).Err? ==> Buckets(facets, kwargs, names, aggs).error == TypeError
  {
    if |names| > 0 {
      assert forall i :: 1 <= i < |names| ==> names[i] == names[1..][i - 1];
      match ArgsOf(Get(kwargs, names[0], PList([])))
      case Err(e) =>
      case Ok(args) =>
        var items := FacetNamed(facets, names[0]).toAggregations(names[0], args);
        BucketsFail(facets, kwargs, names[1..], AddBuckets(aggs, items));
        if exists i :: 0 <= i < |names| && ArgsOf(Get(kwargs, names[i], PList([]))).Err? {
          var i :| 0 <= i < |names| && ArgsOf(Get(kwargs, names[i], PList([]))).Err?;
          assert names[1..][i - 1] == names[i];
        }
    }
  }

  /** The aggregation items the selected facets return, facet after facet
      in selection order. */
  function BucketItems(facets: seq<(string, Facet)>, kwargs: Kwargs, names: seq<string>): seq<(string, Json)>
    requires forall n :: n in names ==> n in FacetNames(facets)
  {
    if |names| == 0 then []
    else
      var items := match ArgsOf(Get(kwargs, names[0], PList([])))
        case Err(_) => []
        case Ok(args) => FacetNamed(facets, names[0]).toAggregations(names[0], args);
      items + BucketItems(facets, kwargs, names[1..])
  }

  /** Building the buckets facet by facet is bucketing all their items in
      one run. */
  lemma {:induction false} BucketsFlat(facets: seq<(string, Facet)>, kwargs: Kwargs, names: seq<string>, aggs: map<string, Json>)
    requires forall n :: n in names ==> n in FacetNames(facets)
    requires Buckets(facets, kwargs, names, aggs).Ok?
    ensures Buckets(facets, kwargs, names, aggs).value == AddBuckets(aggs, BucketItems(facets, kwargs, names))
  {
    if |names| > 0 {
      var args := ArgsOf(Get(kwargs, names[0], PList([]))).value;
      var items := FacetNamed(facets, names[0]).toAggregations(names[0], args);
      BucketsFlat(facets, kwargs, names[1..], AddBuckets(aggs, items));
      AddBucketsAppend(aggs, items, BucketItems(facets, kwargs, names[1..]));
    }
  }

  /** The buckets are the old ones plus one per name the selected facets
      return; a bucket no facet names keeps its old value, and a bucket
      holds the last item of its name, facet after facet. */
  lemma BucketsKeys(facets: seq<(string, Facet)>, kwargs: Kwargs, names: seq<string>, aggs: map<string, Json>)
    requires forall n :: n in names ==> n in FacetNames(facets)
    requires Buckets(facets, kwargs, names, aggs).Ok?
    ensures var items := BucketItems(facets, kwargs, names);
      Buckets(facets, kwargs, names, aggs).value.Keys == aggs.Keys + (set i | 0 <= i < |items| :: items[i].0)
    ensures var items := BucketItems(facets, kwargs, names);
      forall k :: k in aggs && (forall i :: 0 <= i < |items| ==> items[i].0 != k) ==>
        Buckets(facets, kwargs, names, aggs).value[k] == aggs[k]
    ensures var items := BucketItems(facets, kwargs, names);
      forall i :: 0 <= i < |items| && LastOfName(items, i) ==>
        Buckets(facets, kwargs, names, aggs).value[items[i].0] == items[i].1
  {
    BucketsFlat(facets, kwargs, names, aggs);
    AddBucketsShape(aggs, BucketItems(facets, kwargs, names));
  }

  // =====================================================================
  // Query shape (`get_query`, `get_score_functions`, `build_query`)

  datatype QueryClause =
    | MatchAll
    | Bool(clauses: Clauses)
    | FunctionScore(query: QueryClause, functions: seq<Json>)

  /** The request record `build_query` produces: sort list, paging window
      (`from`/`size`), aggregation buckets, stored fields and query. */
  datatype Search = Search(
    sort: seq<SortClause>,
    start: int,
    size: int,
    aggs: map<string, Json>,
    fields: seq<string>,
    query: QueryClause)

  /** The empty clause lists are dropped; with none left the query is
      `match_all`. */
  function Collapse(q: Clauses): (r: QueryClause)
    requires Complete(q)
    ensures r == MatchAll <==> q["must"] == [] && q["must_not"] == [] && q["should"] == []
    ensures r != MatchAll ==> r.Bool?
    ensures r.Bool? ==> forall k :: k in r.clauses <==> k in q && (k in Occurs ==> q[k] != [])
    ensures r.Bool? ==> forall k :: k in r.clauses ==> r.clauses[k] == q[k]
  {
    if q["must"] == [] && q["must_not"] == [] && q["should"] == [] then MatchAll
    else Bool(map k | k in q && (k !in Occurs || q[k] != []) :: q[k])
  }

  /** The clean-up loop of `get_query()`: each empty clause list is deleted
      in turn, noting whether any list is left. */
  method CollapseClauses(q0: Clauses) returns (r: QueryClause)
    requires Complete(q0)
    ensures r == Collapse(q0)
  {
    var query := q0;
    var hasQuery := false;
    var i := 0;
    while i < |Occurs|
      invariant 0 <= i <= |Occurs|
      invariant query.Keys <= q0.Keys
      invariant forall k :: k in query ==> query[k] == q0[k]
      invariant forall k :: k in q0 && k !in Occurs ==> k in query
      invariant forall j :: i <= j < |Occurs| ==> Occurs[j] in query
      invariant forall j :: 0 <= j < i ==> (Occurs[j] in query <==> q0[Occurs[j]] != [])
      invariant hasQuery <==> exists j :: 0 <= j < i && q0[Occurs[j]] != []
    {
      var key := Occurs[i];
      if query[key] == [] {
        query := query - {key};
      } else {
        hasQuery := true;
      }
      i := i + 1;
    }
    assert hasQuery <==> q0[Occurs[0]] != [] || q0[Occurs[1]] != [] || q0[Occurs[2]] != [];
    if hasQuery {
      CollapsedFrom(q0, query);
    }
    r := if hasQuery then Bool(query) else MatchAll;
  }

  /** The entries of a complete `q0` left once exactly its empty clause lists
      are deleted are the clauses of its collapsed query. */
  lemma CollapsedFrom(q0: Clauses, query: Clauses)
    requires Complete(q0) && !(q0["must"] == [] && q0["must_not"] == [] && q0["should"] == [])
    requires query.Keys <= q0.Keys
    requires forall k :: k in query ==> query[k] == q0[k]
    requires forall k :: k in q0 && k !in Occurs ==> k in query
    requires forall j :: 0 <= j < |Occurs| ==> (Occurs[j] in query <==> q0[Occurs[j]] != [])
    ensures query == Collapse(q0).clauses
  {
    var c := Collapse(q0).clauses;
    forall k | k in Occurs
      ensures k in query <==> k in c
    {
      assert k == Occurs[0] || k == Occurs[1] || k == Occurs[2];
    }
  }

  /** `get_query()`: the text query merged with the facet filters, collapsed.
      It fails only where the text query does. */
  function QueryOf(adapter: Adapter, kwargs: Kwargs): (r: Result<QueryClause>)
    ensures r.Err? <==> TextQuery(adapter, Get(kwargs, "q", PStr(""))).Err?
    ensures r.Err? ==> r.error == TextQuery(adapter, Get(kwargs, "q", PStr(""))).error
    ensures r.Ok? ==> r.value.MatchAll? || r.value.Bool?
  {
    match TextQuery(adapter, Get(kwargs, "q", PStr("")))
    case Err(e) => Err(e)
    case Ok(text) => Ok(Collapse(MergeClauses(text, AggregationFilters(adapter.facets, kwargs)).value))
  }

  /** The query is `match_all` exactly when the text gives no clause and no
      facet filter contributes one; otherwise each kind holds the text's
      clauses followed by the facets'. */
  lemma QueryMatchAll(adapter: Adapter, kwargs: Kwargs)
    requires TextQuery(adapter, Get(kwargs, "q", PStr(""))).Ok?
    ensures var text := TextQuery(adapter, Get(kwargs, "q", PStr(""))).value;
      QueryOf(adapter, kwargs) == Ok(MatchAll) <==>
        text["must"] == [] && text["must_not"] == [] &&
        FacetClauses(adapter.facets, kwargs, "must") == [] &&
        FacetClauses(adapter.facets, kwargs, "must_not") == [] &&
        FacetClauses(adapter.facets, kwargs, "should") == []
    ensures var text := TextQuery(adapter, Get(kwargs, "q", PStr(""))).value;
      QueryOf(adapter, kwargs).value.Bool? ==>
        forall k :: k in Occurs ==>
          (k in QueryOf(adapter, kwargs).value.clauses <==> text[k] + FacetClauses(adapter.facets, kwargs, k) != []) &&
          (k in QueryOf(adapter, kwargs).value.clauses ==>
             QueryOf(adapter, kwargs).value.clauses[k] == text[k] + FacetClauses(adapter.facets, kwargs, k))
  {
    var text := TextQuery(adapter, Get(kwargs, "q", PStr(""))).value;
    assert Complete(text);
    MergedKinds(adapter, kwargs, text);
    var merged := MergeClauses(text, AggregationFilters(adapter.facets, kwargs)).value;
    assert QueryOf(adapter, kwargs) == Ok(Collapse(merged));
  }

  /** Merging the facet filters into a complete text query appends each
      kind's facet clauses to the text's. */
  lemma MergedKinds(adapter: Adapter, kwargs: Kwargs, text: Clauses)
    requires Complete(text)
    ensures var merged := MergeClauses(text, AggregationFilters(adapter.facets, kwargs)).value;
      Complete(merged) &&
      merged["must"] == text["must"] + FacetClauses(adapter.facets, kwargs, "must") &&
      merged["must_not"] == text["must_not"] + FacetClauses(adapter.facets, kwargs, "must_not") &&
      merged["should"] == text["should"] + FacetClauses(adapter.facets, kwargs, "should")
    ensures var merged := MergeClauses(text, AggregationFilters(adapter.facets, kwargs)).value;
      forall k :: k in Occurs ==> merged[k] == text[k] + FacetClauses(adapter.facets, kwargs, k)
  {
    var filters := AggregationFilters(adapter.facets, kwargs);
    var merged := MergeClauses(text, filters).value;
    assert GetList(filters, "must") == FacetClauses(adapter.facets, kwargs, "must");
    assert GetList(filters, "must_not") == FacetClauses(adapter.facets, kwargs, "must_not");
    assert GetList(filters, "should") == FacetClauses(adapter.facets, kwargs, "should");
    forall k | k in Occurs
      ensures merged[k] == text[k] + FacetClauses(adapter.facets, kwargs, k)
    {
      assert k == "must" || k == "must_not" || k == "should";
    }
  }

  /** `get_score_functions()`: each booster's score function, in order. */
  function ScoreFunctions(boosters: seq<Booster>): (fs: seq<Json>)
    ensures |fs| == |boosters|
    ensures forall i :: 0 <= i < |boosters| ==> fs[i] == boosters[i].toQuery()
  {
    seq(|boosters|, i requires 0 <= i < |boosters| => boosters[i].toQuery())
  }

  /** The query wrapped in a `function_score` when there are boosters, with
      one score function per booster in order; bare otherwise. */
  function Boosted(boosters: seq<Booster>, q: QueryClause): (r: QueryClause)
    ensures |boosters| == 0 ==> r == q
    ensures |boosters| > 0 ==>
      r.FunctionScore? && r.query == q && |r.functions| == |boosters| &&
      forall i :: 0 <= i < |boosters| ==> r.functions[i] == boosters[i].toQuery()
  {
    if |boosters| > 0 then FunctionScore(q, ScoreFunctions(boosters)) else q
  }

  /** The request `build_query()` gives for the given page and page size:
      sort, paging window, aggregations, no stored fields, and the query,
      wrapped in `function_score` when the adapter has boosters. The first
      step that raises decides the error. */
  function SearchOf(adapter: Adapter, kwargs: Kwargs, page: int, pageSize: int): Result<Search>
  {
    Assemble(GetSort(adapter, kwargs), AggregationsOf(adapter, kwargs, map[]), QueryOf(adapter, kwargs),
      adapter.boosters, page, pageSize)
  }

  /** The offset of a page's first hit. */
  function Offset(page: int, pageSize: int): int
  {
    (page - 1) * pageSize
  }

  /** The request from the results of its three steps, the first error
      winning. */
  function Assemble(sort: Result<seq<SortClause>>, aggs: Result<map<string, Json>>, query: Result<QueryClause>,
                    boosters: seq<Booster>, page: int, pageSize: int): Result<Search>
  {
    if sort.Err? then Err(sort.error)
    else if aggs.Err? then Err(aggs.error)
    else if query.Err? then Err(query.error)
    else Ok(Search(sort.value, Offset(page, pageSize), pageSize, aggs.value, [], Boosted(boosters, query.value)))
  }

  /** The window `qs[start:stop]` with `stop` a page size past the offset. */
  lemma AssembleWindow(sort: Result<seq<SortClause>>, aggs: Result<map<string, Json>>, query: Result<QueryClause>,
                       boosters: seq<Booster>, page: int, pageSize: int, stop: int)
    requires sort.Ok? && aggs.Ok? && query.Ok?
    requires stop == Offset(page, pageSize) + pageSize
    ensures Assemble(sort, aggs, query, boosters, page, pageSize) ==
      Ok(Search(sort.value, Offset(page, pageSize), stop - Offset(page, pageSize), aggs.value, [], Boosted(boosters, query.value)))
  {
  }

  /** What the request holds: the first step that raises decides the error;
      otherwise the sort, the window, the aggregations, no stored fields, and
      the query, bare or in `function_score` with each booster's function. */
  lemma SearchOfShape(adapter: Adapter, kwargs: Kwargs, page: int, pageSize: int)
    ensures var r := SearchOf(adapter, kwargs, page, pageSize);
      r.Ok? <==> GetSort(adapter, kwargs).Ok? && AggregationsOf(adapter, kwargs, map[]).Ok? && QueryOf(adapter, kwargs).Ok?
    ensures var r := SearchOf(adapter, kwargs, page, pageSize);
      r.Err? ==>
        r.error == if GetSort(adapter, kwargs).Err? then GetSort(adapter, kwargs).error
        else if AggregationsOf(adapter, kwargs, map[]).Err? then AggregationsOf(adapter, kwargs, map[]).error
        else QueryOf(adapter, kwargs).error
    ensures var r := SearchOf(adapter, kwargs, page, pageSize);
      r.Ok? ==>
        r.value.sort == GetSort(adapter, kwargs).value &&
        r.value.start == (page - 1) * pageSize && r.value.size == pageSize &&
        r.value.aggs == AggregationsOf(adapter, kwargs, map[]).value && r.value.fields == []
    ensures var r := SearchOf(adapter, kwargs, page, pageSize);
      r.Ok? && |adapter.boosters| == 0 ==> r.value.query == QueryOf(adapter, kwargs).value
    ensures var r := SearchOf(adapter, kwargs, page, pageSize);
      r.Ok? && |adapter.boosters| > 0 ==>
        r.value.query.FunctionScore? && r.value.query.query == QueryOf(adapter, kwargs).value &&
        |r.value.query.functions| == |adapter.boosters| &&
        forall i :: 0 <= i < |adapter.boosters| ==> r.value.query.functions[i] == adapter.boosters[i].toQuery()
  {
  }

  // =====================================================================
  // URL parameters (`to_url`)

  /** A new value joins an existing one: a list gets it appended, a scalar
      becomes a two-item list. */
  function Accumulate(current: Param, value: Param): (r: Param)
    ensures r.PList? && |r.items| >= 1 && r.items[|r.items| - 1] == value
    ensures r.items[..|r.items| - 1] == if current.PList? then current.items else [current]
  {
    if current.PList? then PList(current.items + [value]) else PList([current, value])
  }

  /** The copy `to_url` starts from: `page` is dropped when extras are given. */
  function UrlBase(kwargs: Kwargs, extras: Kwargs): Kwargs
  {
    if |extras| > 0 then kwargs - {"page"} else kwargs
  }

  /** The value a key ends with once the extras are merged into `base`. */
  function UrlValue(base: Kwargs, replace: bool, extras: Kwargs, k: string): Param
    requires k in base || k in extras
  {
    if k in extras then (if !replace && k in base then Accumulate(base[k], extras[k]) else extras[k])
    else base[k]
  }

  /** The parameter map `to_url(replace=replace, **extras)` encodes; without
      extras it is the parameters less `facets`. */
  function UrlParams(kwargs: Kwargs, replace: bool, extras: Kwargs): (r: Kwargs)
    ensures "facets" !in r
    ensures |extras| == 0 ==> r == kwargs - {"facets"}
  {
    var base := UrlBase(kwargs, extras);
    map k | k in base.Keys + extras.Keys && k != "facets" :: UrlValue(base, replace, extras, k)
  }

  /** The URL parameters are the base's and the extras' keys but `facets`. */
  lemma UrlParamsDomain(kwargs: Kwargs, replace: bool, extras: Kwargs)
    ensures UrlParams(kwargs, replace, extras).Keys == (UrlBase(kwargs, extras).Keys + extras.Keys) - {"facets"}
  {
  }

  /** A map holding exactly the merged value of every key of the base and
      the extras gives the URL parameters once `facets` is dropped. */
  lemma UrlParamsOfMerged(kwargs: Kwargs, replace: bool, extras: Kwargs, merged: Kwargs)
    requires forall k :: k in merged <==> k in UrlBase(kwargs, extras) || k in extras
    requires forall k :: k in merged ==> merged[k] == UrlValue(UrlBase(kwargs, extras), replace, extras, k)
    ensures merged - {"facets"} == UrlParams(kwargs, replace, extras)
  {
  }

  /** `facets` never reaches the URL; every other extra is merged in
      (accumulated onto an existing value unless `replace`, and never onto a
      dropped `page`); every other parameter is kept as it was, except that
      `page` is dropped as soon as any extra is given. */
  lemma UrlParamsShape(kwargs: Kwargs, replace: bool, extras: Kwargs)
    ensures "facets" !in UrlParams(kwargs, replace, extras)
    ensures forall k :: k in extras && k != "facets" ==>
      var r := UrlParams(kwargs, replace, extras);
      k in r && r[k] == if !replace && k in kwargs && k != "page" then Accumulate(kwargs[k], extras[k]) else extras[k]
    ensures forall k :: k !in extras && k != "facets" && k != "page" ==>
      var r := UrlParams(kwargs, replace, extras);
      (k in r <==> k in kwargs) && (k in r ==> r[k] == kwargs[k])
    ensures "page" !in extras ==>
      ("page" in UrlParams(kwargs, replace, extras) <==> "page" in kwargs && |extras| == 0)
    ensures "page" !in extras && "page" in UrlParams(kwargs, replace, extras) ==>
      UrlParams(kwargs, replace, extras)["page"] == kwargs["page"]
  {
    var base := UrlBase(kwargs, extras);
    assert forall k :: k != "page" ==> (k in base <==> k in kwargs) && (k in base ==> base[k] == kwargs[k]);
    assert |extras| > 0 ==> "page" !in base;
  }

  /** Extra parameters send the link back to the first page; without them
      the page is kept. */
  lemma UrlPage(kwargs: Kwargs, replace: bool, extras: Kwargs)
    ensures |extras| > 0 && "page" !in extras ==> PageOf(UrlParams(kwargs, replace, extras)) == 1
    ensures |extras| == 0 ==> PageOf(UrlParams(kwargs, replace, extras)) == PageOf(kwargs)
  {
    UrlParamsShape(kwargs, replace, extras);
    if |extras| == 0 {
      assert UrlParams(kwargs, replace, extras) == kwargs - {"facets"};
    }
  }

  // =====================================================================
  // Iteration body (`iter`)

  /** The body `iter` scans: the same request without its aggregations. */
  method StripAggregations(body: map<string, Json>) returns (r: map<string, Json>)
    ensures "aggregations" !in r
    ensures forall k :: k != "aggregations" ==> (k in r <==> k in body) && (k in r ==> r[k] == body[k])
  {
    r := body;
    if "aggregations" in r {
      r := r - {"aggregations"};
    }
  }

  // =====================================================================
  // The query object

  class SearchQuery {
    const adapter: Adapter
    const kwargs: Kwargs
    const page: int
    const pageSize: int

    /** `__init__`: keeps the adapter and parameters and coerces the paging
        parameters. */
    constructor (adapter: Adapter, kwargs: Kwargs)
      ensures this.adapter == adapter && this.kwargs == kwargs
      ensures page == PageOf(kwargs) && pageSize == PageSizeOf(kwargs)
      ensures page >= 1
    {
      this.adapter := adapter;
      this.kwargs := kwargs;
      this.page := PageOf(kwargs);
      this.pageSize := PageSizeOf(kwargs);
    }

    /** `build_text_query()`, as the source runs it: one pass over the terms
        filling `included` and `excluded`, then the two clauses. */
    method BuildTextQuery() returns (r: Result<Clauses>)
      ensures r == TextQuery(adapter, Get(kwargs, "q", PStr("")))
    {
      var terms := TermItems(Get(kwargs, "q", PStr("")));
      if terms.Err? {
        return Err(terms.error);
      }
      var items := terms.value;
      var sides := PartitionTerms(items);
      if sides.Err? {
        return Err(sides.error);
      }
      var (included, excluded) := sides.value;
      TextClausesBuilt(adapter, StrValues(items));
      var query := EmptyBoolQuery();
      if included != [] {
        query := query["must" := query["must"] + [MultiMatchClause(MultiMatchOf(adapter, included))]];
      }
      if excluded != [] {
        query := query["must_not" := query["must_not"] + [MultiMatchClause(MultiMatchOf(adapter, excluded))]];
      }
      r := Ok(query);
    }

    /** `build_aggregation_queries()`: every facet's non-empty filter fragment
        merged in, in the adapter's order. */
    method BuildAggregationQueries() returns (query: Clauses)
      ensures query == AggregationFilters(adapter.facets, kwargs)
      ensures |adapter.facets| == 0 ==> query == EmptyBoolQuery()
    {
      query := EmptyBoolQuery();
      if |adapter.facets| == 0 {
        return;
      }
      var i := 0;
      while i < |adapter.facets|
        invariant 0 <= i <= |adapter.facets|
        invariant query == AggregationFilters(adapter.facets[..i], kwargs)
      {
        var (name, facet) := adapter.facets[i];
        AggregationFiltersStep(adapter.facets, i, kwargs);
        var newQuery := facet.filterFromKwargs(name, kwargs);
        if |newQuery| != 0 {
          var merged := UpdateBoolQuery(query, newQuery);
          query := merged.value;
        }
        i := i + 1;
      }
      assert adapter.facets[..i] == adapter.facets;
    }

    /** `build_aggregations(qs)` on `qs.aggs`: the buckets of each selected
        facet, for its parameter unpacked as arguments. */
    method BuildAggregations(aggs0: map<string, Json>) returns (r: Result<map<string, Json>>)
      ensures r == AggregationsOf(adapter, kwargs, aggs0)
    {
      var selected := FacetsKwargs(adapter, kwargs);
      if selected.Err? {
        return Err(selected.error);
      }
      var names := selected.value;
      var aggs := aggs0;
      var i := 0;
      while i < |names|
        invariant 0 <= i <= |names|
        invariant Buckets(adapter.facets, kwargs, names, aggs0) == Buckets(adapter.facets, kwargs, names[i..], aggs)
      {
        var name := names[i];
        assert names[i..][0] == name && names[i..][1..] == names[i + 1..];
        BucketsStep(adapter.facets, kwargs, names[i..], aggs);
        var facet := FacetNamed(adapter.facets, name);
        var args := ArgsOf(Get(kwargs, name, PList([])));
        if args.Err? {
          return Err(args.error);
        }
        var items := facet.toAggregations(name, args.value);
        if |items| > 0 {
          aggs := AddEachBucket(aggs, items);
        }
        i := i + 1;
      }
      r := Ok(aggs);
    }

    /** `get_query()`, as the source runs it: merge, then drop the empty clause
        lists one kind at a time, noting whether any is left. */
    method GetQuery() returns (r: Result<QueryClause>)
      ensures r == QueryOf(adapter, kwargs)
    {
      var text := BuildTextQuery();
      if text.Err? {
        return Err(text.error);
      }
      var filters := BuildAggregationQueries();
      var merged := UpdateBoolQuery(text.value, filters);
      var query := merged.value;
      var collapsed := CollapseClauses(query);
      r := Ok(collapsed);
    }

    /** `build_query()`: the steps in the source's order, giving `SearchOf`
        the object's page and page size. */
    method BuildQuery() returns (r: Result<Search>)
      ensures r == SearchOf(adapter, kwargs, page, pageSize)
    {
      var sort := GetSort(adapter, kwargs);
      if sort.Err? {
        return Err(sort.error);
      }
      var start := Offset(page, pageSize);
      var aggs := BuildAggregations(map[]);
      if aggs.Err? {
        return Err(aggs.error);
      }
      var query := GetQuery();
      if query.Err? {
        return Err(query.error);
      }
      // `qs[start:stop]` sets `from` to the start and `size` to stop - start.
      var stop := start + pageSize;
      AssembleWindow(sort, aggs, query, adapter.boosters, page, pageSize, stop);
      r := Ok(Search(sort.value, start, stop - start, aggs.value, [],
        Boosted(adapter.boosters, query.value)));
    }

    /** `to_url(replace=replace, **extras)` up to the parameter map: a copy of
        the parameters, `page` dropped when extras are given, each extra merged
        in (accumulated or replacing), and `facets` always dropped. */
    method ToUrl(replace: bool, extras: Kwargs) returns (params: Kwargs)
      ensures params == UrlParams(kwargs, replace, extras)
    {
      params := kwargs;
      if |extras| > 0 {
        params := params - {"page"};
      }
      ghost var base := params;
      assert base == UrlBase(kwargs, extras);
      var todo := extras.Keys;
      while todo != {}
        invariant todo <= extras.Keys
        invariant forall k :: k in params <==> k in base || (k in extras && k !in todo)
        invariant forall k :: k in params ==>
          params[k] == if k in extras && k !in todo then UrlValue(base, replace, extras, k) else base[k]
        decreases todo
      {
        var key :| key in todo;
        var value := extras[key];
        if !replace && key in params {
          if params[key].PList? {
            params := params[key := PList(params[key].items + [value])];
          } else {
            params := params[key := PList([params[key], value])];
          }
        } else {
          params := params[key := value];
        }
        todo := todo - {key};
      }
      UrlParamsOfMerged(kwargs, replace, extras, params);
      params := params - {"facets"};
    }
  }
}
