# Earphones customer-service chatbot: a Dafny model of its data core

The chatbot answers shoppers of an earphones retailer. Its action server
(`earphones_chatbot/actions/actions.py`) and its FastAPI service
(`backend/backend.py`) both run SQL against one SQLite store of
`products`, `users`, `orders` and `complaints`. This project models the
logic behind those calls:

- **Filtered product search.** `DatabaseManager.search_products` starts
  from `SELECT * FROM products WHERE 1=1` and looks at five optional
  criteria: free-text query, brand, price range, product type and a
  comma-separated feature list. An absent criterion (or "any") appends
  nothing. The others each append one WHERE clause with its positional `?`
  parameters, except the features, which append one clause per
  comma-separated piece. It then appends `ORDER BY rating DESC LIMIT 5`.
  - `QueryBuilder` models the clause and parameter construction,
    including the order of the price-range checks ("under", then "-",
    then "over") and the defaults 100 and 400.
  - `Bind` pairs placeholders with parameters left to right, as SQLite
    does. A wrong parameter count is an error, as in SQLite. A pattern
    bound to a price bound, or a number bound to a pattern, is also treated
    as an error; the builders never produce one.
  - `ProductSearch` runs the bound filters over a table snapshot.
  - `SqlLike` gives `LIKE` its SQLite meaning: `%`, `_`, ASCII
    case-insensitive.
- **Multi-word search.** `ActionSearchProducts.run` splits the search
  term on spaces. For each word it runs a query ranked by a 5/3/1
  relevance score (name/brand/tags) and capped at five rows. It merges
  the rows, dropping any whose seven product columns equal those of a row
  already kept. The model is in `RelevanceSearch`. `Ranking` is the
  generic `ORDER BY ... LIMIT k` both searches use.
- **Order lookup and complaints.** `get_order_status` joins orders and
  users; `create_complaint` resolves the user by e-mail and inserts an
  `'open'` complaint. Both are in `Store`.
- **Slot validators.** The form validators are in `SlotValidation`.
- **The FastAPI endpoints** are in `Backend`:
  - `/search_products`, whose price and feature branches are `pass`;
  - `/order_status`, which turns the `ATSYMB` spelling of `@` back into
    `@` before the lookup;
  - `/create_complaint`.
- **The e-mail spelling** (`EmailCodec`). `"ATSYMB".join(email.split("@"))`
  encodes; `"@".join(email.split("ATSYMB"))` decodes.

Modelling choices:

- Tables are sequences in storage order. Prices and ratings are `real`.
- Python's `float()` is a parameter `parse: string -> Option<real>`. A
  failed parse is the error outcome the exception would produce.
- `datetime.now()` is a parameter `now`.
- SQLite leaves the order of rows tied on the sort key open. For the
  product search the contracts promise only what SQL promises: sorted
  order, rows that pass the query, and no better-rated passing row left
  out. For the multi-word search the model resolves ties in one fixed
  order (see "## Left out").

Behaviour of the program worth knowing when reading the contracts:

- Free-text matching uses `LIKE`, which is ASCII case-insensitive.
- A price amount that `float` cannot read raises, so the whole search
  fails; no default bound is used.
- The multi-word reply lists every merged row, which can be more than
  five. Only the emptiness test looks at the first five (`results[:5]`).
- In `actions.py` the encoding line (1462) is commented out. The model
  gives the encoder as written there, and proves what the decoder does
  both for encoded and for plain addresses.

## Model

| member | source | states |
|---|---|---|
| QueryBuilder.QueryPart | earphones_chatbot/actions/actions.py:41-43 | absent or empty query adds nothing; otherwise one clause over name, brand and tags with the pattern `%query%` three times |
| QueryBuilder.BrandPart | earphones_chatbot/actions/actions.py:45-47 | no clause when the brand is absent, empty or "any" in any case; otherwise one `LOWER(brand) LIKE` clause with the lower-cased brand wrapped in `%` |
| QueryBuilder.TypePart | earphones_chatbot/actions/actions.py:66-68 | no clause for absent/empty/"any"; otherwise one tags clause with the lower-cased type |
| QueryBuilder.FeatureList | earphones_chatbot/actions/actions.py:71 | the conditional split equals a plain split on commas, so there is one piece more than there are commas |
| QueryBuilder.FeatureClauses | earphones_chatbot/actions/actions.py:72-75 | one `tags LIKE` clause per piece, in order, with the stripped and lower-cased piece wrapped in `%` |
| QueryBuilder.FeaturePart | earphones_chatbot/actions/actions.py:70-75 | no clause for absent/empty/"any" features; otherwise one clause per comma-separated piece |
| QueryBuilder.ClassifyPrice | earphones_chatbot/actions/actions.py:49-64 | checks "under", then "-", then "over" in that order. Without `$`, "under" gives price < 100 and "over" gives price > 400. The amount after the first `$` is used when present. "-" needs exactly two pieces after removing `$`, else no rule. Any other text gives no rule. A failure is always an unreadable amount |
| QueryBuilder.Build | earphones_chatbot/actions/actions.py:38-77 | the build fails exactly when the price text fails; a built query is balanced (clause arity equals parameter count) |
| QueryBuilder.PlaceholdersMatchParams | earphones_chatbot/actions/actions.py:38-79 | the rendered SQL of a balanced query holds exactly as many `?` as there are parameters |
| QueryBuilder.BuildPlaceholders | earphones_chatbot/actions/actions.py:38-79 | every query the builder produces has as many `?` as parameters, so `execute` can bind it |
| QueryBuilder.Bind | earphones_chatbot/actions/actions.py:79 | a successful positional binding gives one filter per clause and consumes exactly the parameters |
| QueryBuilder.QueryPartMeaning | earphones_chatbot/actions/actions.py:41-43 | for a wildcard-free query a row passes iff the query occurs, ignoring ASCII case, in its name, brand or tags |
| QueryBuilder.BrandPartMeaning | earphones_chatbot/actions/actions.py:45-47 | an active wildcard-free brand passes a row iff the brand occurs, case-folded, in the product's brand |
| QueryBuilder.TypePartMeaning | earphones_chatbot/actions/actions.py:66-68 | an active wildcard-free type passes a row iff it occurs, case-folded, in the tags |
| QueryBuilder.PriceQueryMeaning | earphones_chatbot/actions/actions.py:52-63 | the price clause passes a row iff its price satisfies the rule (strict below, inclusive between, strict above) |
| QueryBuilder.FeatureClausesBind | earphones_chatbot/actions/actions.py:72-75 | the feature clauses bind to one `tags LIKE '%word%'` filter per piece, in order |
| QueryBuilder.FeatureWordLiteral | earphones_chatbot/actions/actions.py:73 | stripping and lower-casing a piece of a wildcard-free list leaves it wildcard-free |
| QueryBuilder.FeaturePartMeaning | earphones_chatbot/actions/actions.py:70-75 | active wildcard-free features pass a row iff every feature word occurs, case-folded, in its tags (AND over features) |
| QueryBuilder.AssembleMeaning | earphones_chatbot/actions/actions.py:38-77 | the assembled query always binds. Its filters keep every row within the price rule. For wildcard-free criteria a row passes iff it is wanted by all five criteria |
| QueryBuilder.BuildMeaning | earphones_chatbot/actions/actions.py:38-79 | for wildcard-free criteria whose build succeeds, a row passes the built query iff it is wanted under the classified price rule |
| Ranking.TopK | earphones_chatbot/actions/actions.py:77 | `ORDER BY ... LIMIT k`: min(n, k) rows drawn from the input, sorted; with fewer than k rows the whole input is kept; any row left out ranks no higher than every kept row |
| ProductSearch.Matching | earphones_chatbot/actions/actions.py:79-80 | exactly the table rows that pass the filters, each as often as in the table |
| ProductSearch.WantedIn | earphones_chatbot/actions/actions.py:38-76 | reference definition of the intended answer: exactly the table rows meeting every criterion, each as often as in the table |
| ProductSearch.MatchingIsWanted | earphones_chatbot/actions/actions.py:79-80 | when the filters pass exactly the wanted rows, the fetched rows are the reference rows, in table order |
| ProductSearch.Capped | earphones_chatbot/actions/actions.py:77 | `LIMIT 5` on a count: at most the count and at most 5, equal to the count below 5 |
| ProductSearch.Page | earphones_chatbot/actions/actions.py:77-80 | min(matches, 5) rows, each a passing table row, rating non-increasing; with fewer than 5 rows every passing row appears as often as in the table |
| ProductSearch.PageIsBest | earphones_chatbot/actions/actions.py:77 | a passing row not on the page is rated no higher than every row on it |
| ProductSearch.PageKeepsBest | earphones_chatbot/actions/actions.py:77-80 | every passing row left off the page is rated no higher than every row on it |
| ProductSearch.PageShowsWanted | earphones_chatbot/actions/actions.py:77-80 | for filters equivalent to the criteria the page has min(wanted, 5) rows, all wanted, and is best rated first among them |
| ProductSearch.PageKeepsBestWanted | earphones_chatbot/actions/actions.py:77-80 | a wanted row left off the page is rated no higher than every shown row |
| ProductSearch.Execute | earphones_chatbot/actions/actions.py:79-80 | execution fails iff the parameters do not bind; otherwise it returns the best-rated page of the matching rows |
| ProductSearch.AssembledPage | earphones_chatbot/actions/actions.py:38-80 | the built query's page has min(passing rows, 5) rows, each passing the query and within the price rule, best rated first; below 5 rows every passing row is shown, and no passing row rated above a shown one is left out. For wildcard-free criteria it has min(wanted rows, 5) rows, all wanted, below 5 every wanted row, and no wanted row rated above a shown one is left out |
| ProductSearch.SearchProducts | earphones_chatbot/actions/actions.py:33-83 | fails iff the price text has an unreadable amount; otherwise the rows answer the criteria as in AssembledPage: the top rows that pass the built query, as many as pass (at most 5), none missing when fewer than 5, best rated first |
| ProductSearch.UnderWithoutAmount | earphones_chatbot/actions/actions.py:50-53 | "under" with no `$` never fails and returns only products cheaper than 100 |
| ProductSearch.OverWithoutAmount | earphones_chatbot/actions/actions.py:61-64 | "over" with no `$` (and no "under" or "-") returns only products dearer than 400 |
| ProductSearch.ResultsInRange | earphones_chatbot/actions/actions.py:49-64 | every row a successful search returns lies within the price rule read from the price text |
| ProductSearch.NoCriteriaIsBestRated | earphones_chatbot/actions/actions.py:38-80 | with no criteria the result is min(n, 5) rows of the whole table and no left-out product is rated higher than a returned one |
| SqlLike.LikeContains | earphones_chatbot/actions/actions.py:42-43 | `value LIKE '%t%'` for a wildcard-free `t` is ASCII case-insensitive substring containment |
| SqlLike.EmptyWordMatchesAll | earphones_chatbot/actions/actions.py:217-219 | the empty word's pattern `%%` matches every value |
| RelevanceSearch.Relevance | earphones_chatbot/actions/actions.py:221-225 | the score is at most 9; it is at least 5 iff the name matches and at least 1 iff any of name, brand, tags matches |
| RelevanceSearch.RelevanceOfWord | earphones_chatbot/actions/actions.py:219-225 | for a wildcard-free word the score is 5/3/1 for case-folded containment in name/brand/tags |
| RelevanceSearch.RankedBeforeIsPreorder | earphones_chatbot/actions/actions.py:228 | `relevance DESC, name` (BINARY collation) is a total preorder |
| RelevanceSearch.Scored | earphones_chatbot/actions/actions.py:221-227 | every matching product (score ≥ 1) appears with its score as often as in the table; nothing else appears |
| RelevanceSearch.WordQuery | earphones_chatbot/actions/actions.py:219-230 | at most 5 rows, each a table product with relevance ≥ 1 and its true score, ordered by relevance then name |
| RelevanceSearch.WordQueryIsBest | earphones_chatbot/actions/actions.py:228-229 | a matching product missing from the page means the page is full and every row ranks at or above it |
| RelevanceSearch.EmptyWordScoresAll | earphones_chatbot/actions/actions.py:217-230 | an empty word (from doubled or edge spaces) returns min(n, 5) rows, all with score 9 |
| RelevanceSearch.CountKey | earphones_chatbot/actions/actions.py:234 | the duplicate count is zero iff no kept row has the item's seven product columns |
| RelevanceSearch.CountSame | earphones_chatbot/actions/actions.py:234 | the loop's sum is zero iff the product is not yet among the results |
| RelevanceSearch.FirstOccurrences | earphones_chatbot/actions/actions.py:232-237 | reference merge: keeps exactly the same set of products and never grows the list |
| RelevanceSearch.FirstOccurrencesDistinct | earphones_chatbot/actions/actions.py:233-237 | the merge lists no product twice |
| RelevanceSearch.FirstOccurrencesFirst | earphones_chatbot/actions/actions.py:233-237 | each kept row is the first fetched row with its product |
| RelevanceSearch.AddRows | earphones_chatbot/actions/actions.py:233-237 | the inner loop computes the reference merge of everything fetched so far |
| RelevanceSearch.MergeResults | earphones_chatbot/actions/actions.py:217-237 | the word loop yields the reference merge: distinct products, every fetched product present, at most 5 per word |
| RelevanceSearch.MergedRows | earphones_chatbot/actions/actions.py:217-237 | every merged row is a product of the table with relevance ≥ 1 |
| RelevanceSearch.ChosenTerm | earphones_chatbot/actions/actions.py:202-207 | the entity value when non-empty, else the slot |
| RelevanceSearch.PageTruthyIffNonEmpty | earphones_chatbot/actions/actions.py:243 | `results[:5]` is truthy iff `results` is non-empty |
| RelevanceSearch.SearchAction | earphones_chatbot/actions/actions.py:198-258 | asks for a term iff no non-empty term; otherwise lists the merged rows if there are any, else "no results"; a listed reply is non-empty, duplicate-free, drawn from the table, at most 5 per word |
| SlotValidation.ValidateOrderId | earphones_chatbot/actions/actions.py:515-528 | keeps the id iff it has at least 3 characters (then asks for the e-mail), else clears it with the hint; the complaint form's copy (617-630) differs only in the hint |
| SlotValidation.ValidateEmail | earphones_chatbot/actions/actions.py:530-542 | keeps the value iff it contains both `@` and `.`, else clears it with the e-mail hint |
| SlotValidation.ValidateBrand | earphones_chatbot/actions/actions.py:551-565 | keeps the value iff lower-cased it is a listed brand or contains "any" or "no"; otherwise "any" |
| SlotValidation.ValidatePriceRange | earphones_chatbot/actions/actions.py:567-580 | keeps the value iff it mentions a price keyword (case-insensitively); otherwise "any" |
| SlotValidation.ValidateProductType | earphones_chatbot/actions/actions.py:582-596 | keeps the value iff it mentions an ear style or "any"; otherwise "any" |
| SlotValidation.ValidateFeatures | earphones_chatbot/actions/actions.py:598-608 | keeps any non-empty value; otherwise "any" |
| SlotValidation.ValidateTopic | earphones_chatbot/actions/actions.py:646-660 | keeps any non-empty value, clears an empty one |
| SlotValidation.ValidateDescription | earphones_chatbot/actions/actions.py:662-674 | keeps the value iff it has at least 10 characters, else clears it with the hint |
| SlotValidation.ValidateSearchQuery | earphones_chatbot/actions/actions.py:683-695 | keeps the value iff it has at least 2 characters, else clears it with the hint |
| SlotValidation.LengthValidatorsStable | earphones_chatbot/actions/actions.py:523-542 | validating a stored order id or e-mail again keeps it (fixed point); likewise description and search query |
| SlotValidation.PreferenceValidatorsStable | earphones_chatbot/actions/actions.py:559-608 | the fallback "any" is accepted by the brand, type and feature validators, so re-validation changes nothing |
| SlotValidation.PriceValidatorStable | earphones_chatbot/actions/actions.py:575-580 | re-validating a stored price range keeps it, though "any" itself mentions no price keyword |
| SlotValidation.FallbackMentionsNoPrice | earphones_chatbot/actions/actions.py:576-580 | "any" contains none of the price keywords |
| SlotValidation.FallbackImposesNothing | earphones_chatbot/actions/actions.py:45-75 | the fallback "any" adds no brand, type or feature clause and no price rule to the search |
| EmailCodec.Encode | earphones_chatbot/actions/actions.py:1462 | splitting on `@` and joining with `ATSYMB` replaces every `@` by `ATSYMB` |
| EmailCodec.Decode | backend/backend.py:380 | splitting on `ATSYMB` and joining with `@` replaces every `ATSYMB` by `@` |
| EmailCodec.EncodedHasNoAt | earphones_chatbot/actions/actions.py:1462 | no `@` survives encoding |
| EmailCodec.DecodeIdentity | backend/backend.py:380 | an address without `ATSYMB` is unchanged by decoding |
| EmailCodec.RoundTrip | backend/backend.py:380 | decoding an encoded address gives it back, for every address not itself containing `ATSYMB` |
| Backend.BuildFastApi | backend/backend.py:325-348 | the endpoint's query is the chatbot's assembly of query, brand and type alone, with no price rule and no feature clauses |
| Backend.FastApiIgnoresPriceAndFeatures | backend/backend.py:336-346 | the price range and features sent change nothing in the query |
| Backend.FastApiMatchesActionsIff | backend/backend.py:320-348 | the endpoint builds the chatbot's query iff the price text yields no rule and the features are absent, empty or "any" |
| Backend.ToJson | backend/backend.py:355-363 | each JSON field carries its column; `stock` is the quantity and `features` the tags |
| Backend.JsonRoundTrip | backend/backend.py:355-363 | the row-to-JSON mapping and its inverse undo each other |
| Backend.JsonList | backend/backend.py:353-366 | one JSON element per row, in row order |
| Backend.SearchEndpoint | backend/backend.py:320-366 | never fails; the listed products answer the query, brand and type criteria with no price rule as in AssembledPage: min(passing, 5) rows that pass the query, every passing row when fewer, no better-rated passing row left out |
| Backend.OrderStatus | backend/backend.py:368-397 | 404 "Order not found" iff no order with that id belongs to a user with the decoded e-mail; otherwise the six order columns of such a pair |
| Backend.OrderStatusOfEncoded | backend/backend.py:370-380 | an encoded address finds an order iff the chatbot's own lookup with the plain address does |
| Backend.OrderStatusOfPlain | backend/backend.py:380 | a plain address without `ATSYMB` is served like the chatbot's lookup |
| Backend.OrderStatusUnique | backend/backend.py:375-397 | with unique keys the response is the matching order's columns |
| Backend.CreateComplaintEndpoint | backend/backend.py:399-424 | 404 "User not found" and no insert iff no user has the e-mail. Otherwise one `'open'` complaint is appended with a fresh id, the request's order, topic and description, and the user's id; other tables are unchanged |
| Store.LookupOrder | earphones_chatbot/actions/actions.py:86-102 | no row iff no order/user pair has that order id, owner and e-mail; a returned row is such a pair's order with the user's name and e-mail |
| Store.LookupOrderUnique | earphones_chatbot/actions/actions.py:91-99 | with unique ids and e-mails the fetched row is the one matching pair's |
| Store.FindUser | earphones_chatbot/actions/actions.py:111-112 | the first user in storage order with exactly that e-mail; none iff no user has it |
| Store.NextComplaintId | earphones_chatbot/actions/actions.py:126-127 | the new rowid exceeds every existing complaint id and every id handed out before |
| Store.CreateComplaint | earphones_chatbot/actions/actions.py:104-131 | returns no id and leaves the store unchanged iff no user has the e-mail. Otherwise it appends exactly one `'open'` complaint with a fresh id and the user's id; products, users and orders are unchanged |
| Store.ComplaintIgnoresOrder | earphones_chatbot/actions/actions.py:110-126 | whether a complaint is filed, and for which user, does not depend on the order id (no ownership check) |
| Store.CreateComplaintKeepsKeys | earphones_chatbot/actions/actions.py:120-131 | filing keeps every key unique, including the complaint ids (AUTOINCREMENT), and the high-water mark at or above every id |

## Left out

- Connections, `cursor`/`commit`/`close`, `print` and logging, and the
  `sqlite3.Error` handler (actions.py:255-256) are I/O. The model treats
  a query as a function of a table snapshot.
- `float()` is the parameter `parse`. Its accepted syntax (whitespace,
  exponents, `inf`) and rounding are not modelled.
- `datetime.now()` is the parameter `now` and is stored as given.
- Python's `str.lower()` on non-ASCII letters is not modelled: `Text.Lower`
  folds ASCII only. SQLite's `LIKE` and `LOWER()` fold ASCII only too.
- The text of the reply messages (`:.2f` formatting, emoji) and the
  dispatcher calls are not modelled. `RelevanceSearch.Reply` records which
  reply is sent and with which rows.
- The order in which SQLite returns rows tied on `rating` is left open by
  the product-search contracts.
- RelevanceSearch.WordQuery, RelevanceSearch.MergeResults,
  RelevanceSearch.SearchAction: rows tied on relevance and name are put
  in the order the model's insertion sort gives them. That is one of the
  orders SQLite allows, but SQLite may return tied rows in another order,
  and at the `LIMIT 5` boundary it may keep a different one of them. The
  exact merged list these members ensure is the one for that order.
- The order-tracking action that would call `/order_status` is commented
  out in `actions.py`. Only its encoding expression (line 1462) is
  modelled.
- The Flask API, the other actions (recommendations, human escalation and
  the rest), the database set-up script and the frontend are not part of
  this model.
- ProductSearch.SearchProducts: the "wanted" half of the answer (each
  row meets every criterion; no better-rated wanted row is left out) is
  stated only for criteria without `%` or `_`. The query-level half (each
  row passes the built query; no better-rated passing row is left out)
  holds for all criteria. With wildcards in the
  user's text, `LIKE` is pattern matching. The model still computes it
  exactly, but no containment reading is claimed.
- ProductSearch.AssembledPage, Backend.SearchEndpoint: the same
  restriction to wildcard-free criteria.
- QueryBuilder.AssembleMeaning, QueryBuilder.BuildMeaning: the same
  restriction to wildcard-free criteria.
- QueryBuilder.Bind: a parameter of the wrong kind for its clause (a
  pattern for a price bound, a number for a pattern) makes binding fail.
  SQLite would bind it and compare by its type rules; that comparison is
  not modelled. No assembled query has such a parameter (AssembleMeaning).
- Store.LookupOrder, Store.CreateComplaint: the order id is an integer.
  The HTTP endpoints declare it so (`order_id: int`). The chatbot passes
  the raw slot text, checked only for length; SQLite then converts it by
  column affinity, and a non-numeric id is stored as text in a complaint.
  Neither conversion is modelled.
- EmailCodec.RoundTrip: only addresses that do not already contain
  `ATSYMB` are proved to round-trip. One that does can come back changed:
  `ATSYMB` itself encodes to itself and decodes to `@`.
- RelevanceSearch.Keys: it states only that every row's product is in
  the set. The converse is implied by its definition and is used through
  `CountKey`.
