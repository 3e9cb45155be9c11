/** Running the built query against a snapshot of `products`:
    `WHERE <filters> ORDER BY rating DESC LIMIT 5`. */
module ProductSearch {
  import opened Outcomes
  import opened Text
  import opened Store
  import opened QueryBuilder
  import opened Ranking

  /** `LIMIT 5`. */
  const PageSize: nat := 5

  /** `ORDER BY rating DESC`: `a` may come before `b`. */
  predicate RatedAbove(a: Product, b: Product) {
    a.rating >= b.rating
  }

  lemma RatedAboveIsPreorder()
    ensures TotalPreorder(RatedAbove)
  {
  }

  /** The rows of `table` that pass `fs`, in storage order. */
  function Matching(table: seq<Product>, fs: seq<Filter>): (r: seq<Product>)
    ensures forall i :: 0 <= i < |r| ==> r[i] in table && Passes(fs, r[i])
    ensures forall p :: Passes(fs, p) ==> multiset(r)[p] == multiset(table)[p]
    ensures multiset(r) <= multiset(table)
  {
    if |table| == 0 then []
    else
      assert table == [table[0]] + table[1..];
      var rest := Matching(table[1..], fs);
      if Passes(fs, table[0]) then [table[0]] + rest else rest
  }

  /** The rows of `table` that criteria `c` want under `rule`, in storage order. */
  function WantedIn(table: seq<Product>, c: Criteria, rule: PriceRule): (r: seq<Product>)
    ensures forall i :: 0 <= i < |r| ==> r[i] in table && Wanted(c, rule, r[i])
    ensures forall p :: Wanted(c, rule, p) ==> multiset(r)[p] == multiset(table)[p]
  {
    if |table| == 0 then []
    else
      assert table == [table[0]] + table[1..];
      var rest := WantedIn(table[1..], c, rule);
      if Wanted(c, rule, table[0]) then [table[0]] + rest else rest
  }

  /** Filters that select exactly the wanted products match exactly the
      wanted rows. */
  lemma {:induction false} MatchingIsWanted(table: seq<Product>, fs: seq<Filter>, c: Criteria, rule: PriceRule)
    requires forall p :: Passes(fs, p) <==> Wanted(c, rule, p)
    ensures Matching(table, fs) == WantedIn(table, c, rule)
    decreases |table|
  {
    if |table| > 0 {
      MatchingIsWanted(table[1..], fs, c, rule);
    }
  }

  /** `LIMIT 5` applied to `n` rows. */
  function Capped(n: nat): (m: nat)
    ensures m <= n && m <= PageSize
    ensures m < PageSize ==> m == n
  {
    if n < PageSize then n else PageSize
  }

  /** The best-rated page of the matching rows. */
  function Page(table: seq<Product>, fs: seq<Filter>): (r: seq<Product>)
    ensures |r| == if |Matching(table, fs)| < PageSize then |Matching(table, fs)| else PageSize
    ensures forall i :: 0 <= i < |r| ==> r[i] in table && Passes(fs, r[i])
    ensures forall i, j :: 0 <= i < j < |r| ==> r[i].rating >= r[j].rating
    ensures multiset(r) <= multiset(table)
    ensures |r| < PageSize ==> forall p :: Passes(fs, p) ==> multiset(r)[p] == multiset(table)[p]
  {
    RatedAboveIsPreorder();
    var m := Matching(table, fs);
    var top := TopK(m, PageSize, RatedAbove);
    forall i | 0 <= i < |top| ensures top[i] in table && Passes(fs, top[i]) {
      assert top[i] in multiset(top);
      assert top[i] in multiset(m);
      assert top[i] in m;
    }
    assert Sorted(top, RatedAbove);
    forall i, j | 0 <= i < j < |top| ensures top[i].rating >= top[j].rating {
      assert RatedAbove(top[i], top[j]);
    }
    assert multiset(top) <= multiset(m) <= multiset(table);
    top
  }

  /** No matching row is left off the page while a worse-rated one is on it
      (rows tied on rating may fall either side, as in SQL). */
  lemma PageIsBest(table: seq<Product>, fs: seq<Filter>, p: Product)
    requires p in table && Passes(fs, p)
    requires multiset(Page(table, fs))[p] < multiset(table)[p]
    ensures forall i :: 0 <= i < |Page(table, fs)| ==> Page(table, fs)[i].rating >= p.rating
  {
    RatedAboveIsPreorder();
    var m := Matching(table, fs);
    assert multiset(m)[p] == multiset(table)[p];
    assert p in multiset(m);
  }

  /** `cursor.execute(sql, params); cursor.fetchall()`: `None` when the
      parameter count does not match the placeholders, or when a clause
      meets a parameter of the other kind (see `BindOne`); the builders
      never produce either. */
  function Execute(q: Query, table: seq<Product>): (r: Option<seq<Product>>)
    ensures r.None? <==> BindQuery(q).None?
    ensures r.Some? ==> r.value == Page(table, BindQuery(q).value)
  {
    match BindQuery(q)
    case None => None
    case Some(fs) => Some(Page(table, fs))
  }

  /** The rows shown are products of the table, best rated first, each
      within the price rule. */
  predicate Sound(table: seq<Product>, rule: PriceRule, page: seq<Product>) {
    && multiset(page) <= multiset(table)
    && (forall i :: 0 <= i < |page| ==> page[i] in table && InRange(rule, page[i].price))
    && (forall i, j :: 0 <= i < j < |page| ==> page[i].rating >= page[j].rating)
  }

  /** The top rows that pass `fs`: as many as pass, up to five, each one
      passing; every passing row shown when fewer than five are, and no
      passing row left out is rated above one shown. */
  ghost predicate Complete(table: seq<Product>, fs: seq<Filter>, page: seq<Product>) {
    && |page| == Capped(|Matching(table, fs)|)
    && (forall i :: 0 <= i < |page| ==> Passes(fs, page[i]))
    && (|page| < PageSize ==> forall p :: Passes(fs, p) ==> multiset(page)[p] == multiset(table)[p])
    && (forall p :: p in table && Passes(fs, p) && multiset(page)[p] < multiset(table)[p] ==>
          forall i :: 0 <= i < |page| ==> page[i].rating >= p.rating)
  }

  /** The same in terms of what the criteria want: each row shown is wanted,
      there are min(wanted rows, 5) of them, and no wanted product left out
      is rated above one shown. */
  ghost predicate ShowsWanted(table: seq<Product>, c: Criteria, rule: PriceRule, page: seq<Product>) {
    && |page| == Capped(|WantedIn(table, c, rule)|)
    && (forall i :: 0 <= i < |page| ==> Wanted(c, rule, page[i]))
    && (forall p :: p in table && Wanted(c, rule, p) && multiset(page)[p] < multiset(table)[p] ==>
          forall i :: 0 <= i < |page| ==> page[i].rating >= p.rating)
  }

  /** `page` answers criteria `c` under price rule `rule` over `table`: it is
      sound, complete for the built query's filters, and, when the criteria
      carry no LIKE wildcards, shows exactly what they want. */
  ghost predicate Answers(table: seq<Product>, c: Criteria, rule: PriceRule, page: seq<Product>) {
    && Sound(table, rule, page)
    && BindQuery(Assemble(c, rule)).Some?
    && Complete(table, BindQuery(Assemble(c, rule)).value, page)
    && (LiteralCriteria(c) ==> ShowsWanted(table, c, rule, page))
  }

  /** The built query binds, and what its filters let through. */
  lemma AssembledFilters(c: Criteria, rule: PriceRule)
    ensures BindQuery(Assemble(c, rule)).Some?
    ensures forall p :: Passes(BindQuery(Assemble(c, rule)).value, p) ==> InRange(rule, p.price)
    ensures LiteralCriteria(c) ==>
      forall p :: Passes(BindQuery(Assemble(c, rule)).value, p) <==> Wanted(c, rule, p)
  {
    AssembleMeaning(c, rule, Product(0, "", "", 0.0, 0, 0.0, ""));
    forall p ensures (Passes(BindQuery(Assemble(c, rule)).value, p) ==> InRange(rule, p.price))
      && (LiteralCriteria(c) ==> (Passes(BindQuery(Assemble(c, rule)).value, p) <==> Wanted(c, rule, p)))
    {
      AssembleMeaning(c, rule, p);
    }
  }

  /** The page over the filters of the built query answers the criteria. */
  lemma PageAnswers(table: seq<Product>, fs: seq<Filter>, c: Criteria, rule: PriceRule)
    requires BindQuery(Assemble(c, rule)) == Some(fs)
    requires forall p :: Passes(fs, p) ==> InRange(rule, p.price)
    requires LiteralCriteria(c) ==> forall p :: Passes(fs, p) <==> Wanted(c, rule, p)
    ensures Answers(table, c, rule, Page(table, fs))
  {
    var page := Page(table, fs);
    assert Sound(table, rule, page);
    PageKeepsBest(table, fs);
    assert Complete(table, fs, page);
    if LiteralCriteria(c) {
      PageShowsWanted(table, fs, c, rule);
    }
  }

  lemma PageShowsWanted(table: seq<Product>, fs: seq<Filter>, c: Criteria, rule: PriceRule)
    requires forall p :: Passes(fs, p) <==> Wanted(c, rule, p)
    ensures ShowsWanted(table, c, rule, Page(table, fs))
  {
    var page := Page(table, fs);
    MatchingIsWanted(table, fs, c, rule);
    assert |page| == Capped(|WantedIn(table, c, rule)|);
    forall i | 0 <= i < |page| ensures Wanted(c, rule, page[i]) {
      assert Passes(fs, page[i]);
    }
    PageKeepsBestWanted(table, fs, c, rule);
  }

  /** No passing row left off the page is rated above a row on it. */
  lemma PageKeepsBest(table: seq<Product>, fs: seq<Filter>)
    ensures forall p :: p in table && Passes(fs, p) && multiset(Page(table, fs))[p] < multiset(table)[p] ==>
      forall i :: 0 <= i < |Page(table, fs)| ==> Page(table, fs)[i].rating >= p.rating
  {
    forall p | p in table && Passes(fs, p) && multiset(Page(table, fs))[p] < multiset(table)[p]
      ensures forall i :: 0 <= i < |Page(table, fs)| ==> Page(table, fs)[i].rating >= p.rating
    {
      PageIsBest(table, fs, p);
    }
  }

  /** No wanted product left off the page is rated above a row on it. */
  lemma PageKeepsBestWanted(table: seq<Product>, fs: seq<Filter>, c: Criteria, rule: PriceRule)
    requires forall p :: Passes(fs, p) <==> Wanted(c, rule, p)
    ensures forall p :: p in table && Wanted(c, rule, p) && multiset(Page(table, fs))[p] < multiset(table)[p] ==>
      forall i :: 0 <= i < |Page(table, fs)| ==> Page(table, fs)[i].rating >= p.rating
  {
    forall p | p in table && Wanted(c, rule, p) && multiset(Page(table, fs))[p] < multiset(table)[p]
      ensures forall i :: 0 <= i < |Page(table, fs)| ==> Page(table, fs)[i].rating >= p.rating
    {
      assert Passes(fs, p);
    }
    PageKeepsBest(table, fs);
  }

  /** The page of the query built for `c` and `rule` answers them. */
  lemma AssembledPage(table: seq<Product>, c: Criteria, rule: PriceRule)
    ensures BindQuery(Assemble(c, rule)).Some?
    ensures Answers(table, c, rule, Page(table, BindQuery(Assemble(c, rule)).value))
  {
    AssembledFilters(c, rule);
    PageAnswers(table, BindQuery(Assemble(c, rule)).value, c, rule);
  }

  /** `DatabaseManager.search_products`: a price text `float` cannot read
      makes the call fail; otherwise the rows answer the criteria under the
      classified price rule. */
  function SearchProducts(table: seq<Product>, c: Criteria, parse: string -> Option<real>)
    : (r: Result<seq<Product>, BuildError>)
    ensures r.Err? <==> ClassifyPrice(c.priceRange, parse).Err?
    ensures r.Ok? ==> Answers(table, c, ClassifyPrice(c.priceRange, parse).value, r.value)
  {
    var priced := ClassifyPrice(c.priceRange, parse);
    if priced.Err? then Err(priced.error)
    else
      AssembledPage(table, c, priced.value);
      Ok(Execute(Assemble(c, priced.value), table).value)
  }

  /** "under" with no amount: every product returned costs less than 100. */
  lemma UnderWithoutAmount(table: seq<Product>, c: Criteria, parse: string -> Option<real>)
    requires Present(c.priceRange) && Contains(Lower(c.priceRange.value), "under")
    requires !Contains(c.priceRange.value, "$")
    ensures SearchProducts(table, c, parse).Ok?
    ensures forall i :: 0 <= i < |SearchProducts(table, c, parse).value| ==>
      SearchProducts(table, c, parse).value[i].price < 100.0
  {
    var rule := ClassifyPrice(c.priceRange, parse);
    assert rule == Ok(Below(100.0));
    var r := SearchProducts(table, c, parse);
    assert r.Ok?;
    assert Sound(table, rule.value, r.value);
    assert forall i :: 0 <= i < |r.value| ==> InRange(rule.value, r.value[i].price);
  }

  /** "over" with no amount (and no "under" or "-"): every product returned
      costs more than 400. */
  lemma OverWithoutAmount(table: seq<Product>, c: Criteria, parse: string -> Option<real>)
    requires Present(c.priceRange) && !Contains(Lower(c.priceRange.value), "under")
    requires !Contains(c.priceRange.value, "-") && Contains(Lower(c.priceRange.value), "over")
    requires !Contains(c.priceRange.value, "$")
    ensures SearchProducts(table, c, parse).Ok?
    ensures forall i :: 0 <= i < |SearchProducts(table, c, parse).value| ==>
      SearchProducts(table, c, parse).value[i].price > 400.0
  {
    OverRule(c.priceRange, parse);
    ResultsInRange(table, c, parse);
    var r := SearchProducts(table, c, parse).value;
    forall i | 0 <= i < |r| ensures r[i].price > 400.0 {
      assert InRange(Above(400.0), r[i].price);
    }
  }

  /** Every product a successful search returns keeps to its price rule. */
  lemma ResultsInRange(table: seq<Product>, c: Criteria, parse: string -> Option<real>)
    requires SearchProducts(table, c, parse).Ok?
    ensures forall i :: 0 <= i < |SearchProducts(table, c, parse).value| ==>
      InRange(ClassifyPrice(c.priceRange, parse).value, SearchProducts(table, c, parse).value[i].price)
  {
    var r := SearchProducts(table, c, parse);
    assert Sound(table, ClassifyPrice(c.priceRange, parse).value, r.value);
  }

  lemma OverRule(priceRange: Option<string>, parse: string -> Option<real>)
    requires Present(priceRange) && !Contains(Lower(priceRange.value), "under")
    requires !Contains(priceRange.value, "-") && Contains(Lower(priceRange.value), "over")
    requires !Contains(priceRange.value, "$")
    ensures ClassifyPrice(priceRange, parse) == Ok(Above(400.0))
  {
  }

  /** With no criteria at all the query has no WHERE condition: the page is
      the five best-rated products of the whole table. */
  lemma NoCriteriaIsBestRated(table: seq<Product>, parse: string -> Option<real>)
    ensures var r := SearchProducts(table, Criteria(None, None, None, None, None), parse);
      && r.Ok?
      && |r.value| == (if |table| < PageSize then |table| else PageSize)
      && (forall p :: p in table && multiset(r.value)[p] < multiset(table)[p] ==>
            forall i :: 0 <= i < |r.value| ==> r.value[i].rating >= p.rating)
  {
    var c := Criteria(None, None, None, None, None);
    assert ClassifyPrice(c.priceRange, parse) == Ok(NoRule);
    var r := SearchProducts(table, c, parse);
    assert r.Ok? && LiteralCriteria(c);
    assert ShowsWanted(table, c, NoRule, r.value);
    forall p ensures Wanted(c, NoRule, p) {
    }
    var w := WantedIn(table, c, NoRule);
    assert multiset(w) == multiset(table);
    assert |w| == |multiset(w)| == |table|;
  }
}
