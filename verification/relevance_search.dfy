/** `ActionSearchProducts.run`: one ranked `LIKE` query per space-separated
    search word, the fetched rows merged without repeating a product, and
    the reply built from the merged list. */
module RelevanceSearch {
  import opened Outcomes
  import opened Text
  import opened SqlLike
  import opened Store
  import opened Ranking

  /** A fetched row: the seven product columns plus the computed `relevance`. */
  datatype Row = Row(product: Product, relevance: int)

  /** Rows a single search word's query may return (`LIMIT 5`). */
  const PerWord: nat := 5

  /** `(CASE WHEN name LIKE ? THEN 5 ELSE 0 END) + (CASE WHEN brand LIKE ?
      THEN 3 ELSE 0 END) + (CASE WHEN tags LIKE ? THEN 1 ELSE 0 END)`. */
  function Relevance(p: Product, pattern: string): (n: nat)
    ensures n <= 9
    ensures n >= 5 <==> Like(p.name, pattern)
    ensures n >= 1 <==> Like(p.name, pattern) || Like(p.brand, pattern) || Like(p.tags, pattern)
  {
    (if Like(p.name, pattern) then 5 else 0)
    + (if Like(p.brand, pattern) then 3 else 0)
    + (if Like(p.tags, pattern) then 1 else 0)
  }

  // ---------------------------------------------------------------------
  // ORDER BY relevance DESC, name
  // ---------------------------------------------------------------------

  /** SQLite's BINARY collation on text: lexicographic by code point. */
  predicate NameLe(a: string, b: string)
    decreases |a|
  {
    |a| == 0 || (|b| > 0 && (a[0] < b[0] || (a[0] == b[0] && NameLe(a[1..], b[1..]))))
  }

  lemma {:induction false} NameLeTotal(a: string, b: string)
    ensures NameLe(a, b) || NameLe(b, a)
    decreases |a|
  {
    if |a| > 0 && |b| > 0 && a[0] == b[0] {
      NameLeTotal(a[1..], b[1..]);
    }
  }

  lemma {:induction false} NameLeTransitive(a: string, b: string, c: string)
    requires NameLe(a, b) && NameLe(b, c)
    ensures NameLe(a, c)
    decreases |a|
  {
    if |a| > 0 && a[0] == b[0] && b[0] == c[0] {
      NameLeTransitive(a[1..], b[1..], c[1..]);
    }
  }

  /** `a` may be listed before `b`: higher relevance first, then by name. */
  predicate RankedBefore(a: Row, b: Row) {
    a.relevance > b.relevance
    || (a.relevance == b.relevance && NameLe(a.product.name, b.product.name))
  }

  lemma RankedBeforeIsPreorder()
    ensures TotalPreorder(RankedBefore)
  {
    forall a: Row, b: Row ensures RankedBefore(a, b) || RankedBefore(b, a) {
      NameLeTotal(a.product.name, b.product.name);
    }
    forall a: Row, b: Row, c: Row | RankedBefore(a, b) && RankedBefore(b, c)
      ensures RankedBefore(a, c)
    {
      if a.relevance == b.relevance == c.relevance {
        NameLeTransitive(a.product.name, b.product.name, c.product.name);
      }
    }
  }

  // ---------------------------------------------------------------------
  // One word's query
  // ---------------------------------------------------------------------

  /** `WHERE name LIKE ? OR brand LIKE ? OR tags LIKE ?`, each row scored,
      in storage order. */
  function Scored(table: seq<Product>, pattern: string): (r: seq<Row>)
    ensures forall k :: 0 <= k < |r| ==>
      r[k].product in table && r[k].relevance == Relevance(r[k].product, pattern) && r[k].relevance >= 1
    ensures forall p :: Relevance(p, pattern) >= 1 ==>
      multiset(r)[Row(p, Relevance(p, pattern))] == multiset(table)[p]
    ensures |r| <= |table|
  {
    if |table| == 0 then []
    else
      assert table == [table[0]] + table[1..];
      var rest := Scored(table[1..], pattern);
      var p := table[0];
      if Relevance(p, pattern) >= 1 then [Row(p, Relevance(p, pattern))] + rest else rest
  }

  /** The query the source runs for one word, with pattern `%word%`. */
  function WordQuery(table: seq<Product>, word: string): (r: seq<Row>)
    ensures |r| <= PerWord
    ensures forall k :: 0 <= k < |r| ==>
      r[k].product in table && r[k].relevance >= 1
      && r[k].relevance == Relevance(r[k].product, Surround(word))
    ensures forall k, l :: 0 <= k < l < |r| ==> RankedBefore(r[k], r[l])
  {
    RankedBeforeIsPreorder();
    var s := Scored(table, Surround(word));
    var r := TopK(s, PerWord, RankedBefore);
    forall k | 0 <= k < |r| ensures r[k] in s {
      assert r[k] in multiset(r);
    }
    r
  }

  /** The page of one word's query is the best-ranked part of all matches:
      a matching product not on a full page ranks no higher than any row on it. */
  lemma WordQueryIsBest(table: seq<Product>, word: string, p: Product)
    requires p in table && Relevance(p, Surround(word)) >= 1
    requires Row(p, Relevance(p, Surround(word))) !in WordQuery(table, word)
    ensures |WordQuery(table, word)| == PerWord
    ensures forall k :: 0 <= k < PerWord ==>
      RankedBefore(WordQuery(table, word)[k], Row(p, Relevance(p, Surround(word))))
  {
    RankedBeforeIsPreorder();
    var s := Scored(table, Surround(word));
    var row := Row(p, Relevance(p, Surround(word)));
    assert multiset(s)[row] == multiset(table)[p] > 0;
    assert row in s;
  }

  /** For a word without wildcards, the score counts the case-insensitive
      containments: 5 for the name, 3 for the brand, 1 for the tags. */
  lemma RelevanceOfWord(p: Product, word: string)
    requires Literal(word)
    ensures Relevance(p, Surround(word)) ==
      (if Contains(Lower(p.name), Lower(word)) then 5 else 0)
      + (if Contains(Lower(p.brand), Lower(word)) then 3 else 0)
      + (if Contains(Lower(p.tags), Lower(word)) then 1 else 0)
  {
    LikeContains(p.name, word);
    LikeContains(p.brand, word);
    LikeContains(p.tags, word);
  }

  /** An empty word (two adjacent spaces, or a leading or trailing one)
      gives `%%`: every product matches, with the full score of 9. */
  lemma EmptyWordScoresAll(table: seq<Product>)
    ensures |WordQuery(table, "")| == if |table| < PerWord then |table| else PerWord
    ensures forall k :: 0 <= k < |WordQuery(table, "")| ==> WordQuery(table, "")[k].relevance == 9
  {
    forall p: Product ensures Relevance(p, Surround("")) == 9 {
      EmptyWordMatchesAll(p.name);
      EmptyWordMatchesAll(p.brand);
      EmptyWordMatchesAll(p.tags);
    }
    var s := Scored(table, Surround(""));
    assert |s| == |table| by {
      var ms := multiset(s);
      assert forall p :: multiset(table)[p] == ms[Row(p, 9)];
      assert |s| <= |table|;
      ScoredCount(table, Surround(""));
    }
  }

  /** When every product matches, every product is scored. */
  lemma {:induction false} ScoredCount(table: seq<Product>, pattern: string)
    requires forall p: Product :: Relevance(p, pattern) >= 1
    ensures |Scored(table, pattern)| == |table|
    decreases |table|
  {
    if |table| > 0 {
      ScoredCount(table[1..], pattern);
    }
  }

  // ---------------------------------------------------------------------
  // Merging the words' rows: first occurrence of each product kept
  // ---------------------------------------------------------------------

  /** The products (`item[:7]`) of a list of rows. */
  function Keys(s: seq<Row>): (ks: set<Product>)
    ensures forall k :: 0 <= k < |s| ==> s[k].product in ks
  {
    if |s| == 0 then {}
    else Keys(s[..|s| - 1]) + {s[|s| - 1].product}
  }

  /** `sum([item[:7] == res[:7] for res in results])`. */
  function CountKey(s: seq<Row>, p: Product): (n: nat)
    ensures n == 0 <==> p !in Keys(s)
  {
    if |s| == 0 then 0
    else CountKey(s[..|s| - 1], p) + (if s[|s| - 1].product == p then 1 else 0)
  }

  /** Reference: scanning left to right, keep a row when no earlier row had
      its product. */
  function FirstOccurrences(s: seq<Row>): (r: seq<Row>)
    ensures Keys(r) == Keys(s)
    ensures |r| <= |s|
  {
    if |s| == 0 then []
    else
      var d := FirstOccurrences(s[..|s| - 1]);
      if s[|s| - 1].product in Keys(d) then d else d + [s[|s| - 1]]
  }

  predicate DistinctKeys(s: seq<Row>) {
    forall k, l :: 0 <= k < l < |s| ==> s[k].product != s[l].product
  }

  /** The row kept at position `k` of `s` is the first with its product. */
  predicate FirstIn(s: seq<Row>, row: Row) {
    exists i :: 0 <= i < |s| && s[i] == row && forall j :: 0 <= j < i ==> s[j].product != row.product
  }

  /** One step of the reference: a row is appended exactly when its product is new. */
  lemma FirstOccurrencesStep(s: seq<Row>, x: Row)
    ensures FirstOccurrences(s + [x]) ==
      if x.product in Keys(FirstOccurrences(s)) then FirstOccurrences(s) else FirstOccurrences(s) + [x]
  {
    assert (s + [x])[..|s|] == s;
  }

  /** No product is listed twice. */
  lemma {:induction false} FirstOccurrencesDistinct(s: seq<Row>)
    ensures DistinctKeys(FirstOccurrences(s))
    decreases |s|
  {
    if |s| > 0 {
      var init := s[..|s| - 1];
      var x := s[|s| - 1];
      assert init + [x] == s;
      FirstOccurrencesDistinct(init);
      FirstOccurrencesStep(init, x);
      var d := FirstOccurrences(init);
      if x.product !in Keys(d) {
        forall k | 0 <= k < |d| ensures d[k].product != x.product {
          assert d[k].product in Keys(d);
        }
      }
    }
  }

  /** A row first in a list stays first when the list grows at the end. */
  lemma FirstInExtend(s: seq<Row>, x: Row, row: Row)
    requires FirstIn(s, row)
    ensures FirstIn(s + [x], row)
  {
    var i :| 0 <= i < |s| && s[i] == row && forall j :: 0 <= j < i ==> s[j].product != row.product;
    assert (s + [x])[i] == row;
    assert forall j :: 0 <= j < i ==> (s + [x])[j] == s[j];
  }

  /** A row whose product is new is the first with it. */
  lemma FirstInNew(s: seq<Row>, x: Row)
    requires x.product !in Keys(s)
    ensures FirstIn(s + [x], x)
  {
    assert (s + [x])[|s|] == x;
    forall j | 0 <= j < |s| ensures (s + [x])[j].product != x.product {
      assert (s + [x])[j] == s[j];
    }
  }

  /** Each kept row is the first row of `s` with its product. */
  lemma {:induction false} FirstOccurrencesFirst(s: seq<Row>)
    ensures forall k :: 0 <= k < |FirstOccurrences(s)| ==> FirstIn(s, FirstOccurrences(s)[k])
    decreases |s|
  {
    if |s| > 0 {
      var init := s[..|s| - 1];
      var x := s[|s| - 1];
      assert init + [x] == s;
      FirstOccurrencesFirst(init);
      FirstOccurrencesStep(init, x);
      var d := FirstOccurrences(init);
      var r := FirstOccurrences(s);
      forall k | 0 <= k < |r| ensures FirstIn(s, r[k]) {
        if k < |d| {
          assert r[k] == d[k];
          FirstInExtend(init, x, d[k]);
        } else {
          assert r[k] == x;
          FirstInNew(init, x);
        }
      }
    }
  }

  /** All rows the words' queries fetched, in the order the loop sees them. */
  function Fetched(table: seq<Product>, words: seq<string>): (r: seq<Row>)
    ensures |r| <= PerWord * |words|
  {
    if |words| == 0 then []
    else Fetched(table, words[..|words| - 1]) + WordQuery(table, words[|words| - 1])
  }

  lemma FetchedStep(table: seq<Product>, words: seq<string>, w: int)
    requires 0 <= w < |words|
    ensures Fetched(table, words[..w + 1]) == Fetched(table, words[..w]) + WordQuery(table, words[w])
  {
    assert words[..w + 1][..w] == words[..w];
  }

  /** `sum([item[:7] == res[:7] for res in results if len(results)>0])`. */
  method CountSame(results: seq<Row>, item: Row) returns (same: nat)
    ensures same == 0 <==> item.product !in Keys(results)
  {
    same := 0;
    var j := 0;
    while j < |results|
      invariant 0 <= j <= |results|
      invariant same == CountKey(results[..j], item.product)
    {
      if results[j].product == item.product {
        same := same + 1;
      }
      assert results[..j + 1][..j] == results[..j];
      j := j + 1;
    }
    assert results[..j] == results;
  }

  /** The inner loop over one word's rows: each row is appended unless a
      row with the same seven product columns is already in `results`.
      `seen` is everything fetched before these rows. */
  method AddRows(results: seq<Row>, rows: seq<Row>, ghost seen: seq<Row>) returns (merged: seq<Row>)
    requires results == FirstOccurrences(seen)
    ensures merged == FirstOccurrences(seen + rows)
  {
    merged := results;
    var i := 0;
    assert seen + rows[..0] == seen;
    while i < |rows|
      invariant 0 <= i <= |rows|
      invariant merged == FirstOccurrences(seen + rows[..i])
    {
      var item := rows[i];
      var same := CountSame(merged, item);
      assert seen + rows[..i + 1] == (seen + rows[..i]) + [item];
      FirstOccurrencesStep(seen + rows[..i], item);
      if same == 0 {
        merged := merged + [item];
      }
      i := i + 1;
    }
    assert rows[..i] == rows;
  }

  /** The loop of `ActionSearchProducts.run` over the search words. */
  method MergeResults(table: seq<Product>, words: seq<string>) returns (results: seq<Row>)
    ensures results == FirstOccurrences(Fetched(table, words))
    ensures DistinctKeys(results)
    ensures Keys(results) == Keys(Fetched(table, words))
    ensures |results| <= PerWord * |words|
  {
    results := [];
    var w := 0;
    while w < |words|
      invariant 0 <= w <= |words|
      invariant results == FirstOccurrences(Fetched(table, words[..w]))
    {
      results := AddRows(results, WordQuery(table, words[w]), Fetched(table, words[..w]));
      FetchedStep(table, words, w);
      w := w + 1;
    }
    assert words[..w] == words;
    FirstOccurrencesDistinct(Fetched(table, words));
  }

  // ---------------------------------------------------------------------
  // The reply
  // ---------------------------------------------------------------------

  /** What the action says: ask for a term (`utter_ask_search_term`), list
      the merged results, or `utter_no_results`. */
  datatype Reply = AskForTerm | Listed(rows: seq<Row>) | NoResults

  /** The `search_term` entity of the latest message, else the slot. */
  function ChosenTerm(entity: Option<string>, slot: Option<string>): (t: Option<string>)
    ensures Present(entity) ==> t == entity
    ensures !Present(entity) ==> t == slot
  {
    if Present(entity) then entity else slot
  }

  /** Python's truthiness of `results[:5]`. */
  predicate PageTruthy(results: seq<Row>) {
    |results[..if |results| < 5 then |results| else 5]| > 0
  }

  /** `results[:5]` is truthy exactly when `results` is non-empty. */
  lemma PageTruthyIffNonEmpty(results: seq<Row>)
    ensures PageTruthy(results) <==> |results| > 0
  {
  }

  /** `ActionSearchProducts.run`. The list shows every merged row (not only
      the first five the emptiness test looks at). */
  method SearchAction(table: seq<Product>, entity: Option<string>, slot: Option<string>)
    returns (reply: Reply)
    ensures !Present(ChosenTerm(entity, slot)) <==> reply == AskForTerm
    ensures Present(ChosenTerm(entity, slot)) ==>
      var words := Split(ChosenTerm(entity, slot).value, " ");
      var merged := FirstOccurrences(Fetched(table, words));
      && (|merged| > 0 ==> reply == Listed(merged))
      && (|merged| == 0 ==> reply == NoResults)
    ensures reply.Listed? ==>
      && |reply.rows| > 0
      && DistinctKeys(reply.rows)
      && |reply.rows| <= PerWord * |Split(ChosenTerm(entity, slot).value, " ")|
      && (forall k :: 0 <= k < |reply.rows| ==> reply.rows[k].product in table && reply.rows[k].relevance >= 1)
  {
    var term := ChosenTerm(entity, slot);
    if !Present(term) {
      return AskForTerm;
    }
    var words := Split(term.value, " ");
    var results := MergeResults(table, words);
    PageTruthyIffNonEmpty(results);
    MergedRows(table, words);
    if PageTruthy(results) {
      reply := Listed(results);
    } else {
      reply := NoResults;
    }
  }

  /** Every merged row is a scored product of the table. */
  lemma MergedRows(table: seq<Product>, words: seq<string>)
    ensures forall k :: 0 <= k < |FirstOccurrences(Fetched(table, words))| ==>
      FirstOccurrences(Fetched(table, words))[k].product in table
      && FirstOccurrences(Fetched(table, words))[k].relevance >= 1
  {
    var s := Fetched(table, words);
    FetchedRows(table, words);
    FirstOccurrencesFirst(s);
    forall k | 0 <= k < |FirstOccurrences(s)|
      ensures FirstOccurrences(s)[k].product in table && FirstOccurrences(s)[k].relevance >= 1
    {
      var i :| 0 <= i < |s| && s[i] == FirstOccurrences(s)[k]
        && forall j :: 0 <= j < i ==> s[j].product != FirstOccurrences(s)[k].product;
    }
  }

  /** Every fetched row is a scored product of the table. */
  lemma {:induction false} FetchedRows(table: seq<Product>, words: seq<string>)
    ensures forall k :: 0 <= k < |Fetched(table, words)| ==>
      Fetched(table, words)[k].product in table && Fetched(table, words)[k].relevance >= 1
    decreases |words|
  {
    if |words| > 0 {
      FetchedRows(table, words[..|words| - 1]);
    }
  }
}
