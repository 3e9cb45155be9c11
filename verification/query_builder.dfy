/** `DatabaseManager.search_products`'s filter construction: five optional
    criteria become WHERE clauses appended to
    `SELECT * FROM products WHERE 1=1`, with a parallel list of positional
    parameters, and `ORDER BY rating DESC LIMIT 5` at the end. The clauses
    are kept as shapes with `?` holes; `Bind` pairs them with the parameters
    the way SQLite binds them, giving the filters a product must pass. */
module QueryBuilder {
  import opened Outcomes
  import opened Text
  import opened SqlLike
  import opened Store

  /** The `ProductSearch` criteria; `None` is Python's `None`. */
  datatype Criteria = Criteria(
    query: Option<string>, brand: Option<string>, priceRange: Option<string>,
    productType: Option<string>, features: Option<string>)

  /** The WHERE-clause shapes the builders append. */
  datatype Clause =
    | AnyField       // " AND (name LIKE ? OR brand LIKE ? OR tags LIKE ?)"
    | BrandIs        // " AND LOWER(brand) LIKE ?"
    | PriceBelow     // " AND price < ?"
    | PriceBetween   // " AND price BETWEEN ? AND ?"
    | PriceAbove     // " AND price > ?"
    | TagsHave       // " AND tags LIKE ?"

  /** A positional parameter: a LIKE pattern or a price bound. */
  datatype Param = Str(s: string) | Num(x: real)

  /** The two accumulators of the builder: clauses and `params`. */
  datatype Query = Query(clauses: seq<Clause>, params: seq<Param>)

  /** A piece of SQL text: literal text or a `?` placeholder. */
  datatype SqlPiece = Lit(text: string) | Hole

  /** Clause text followed by one `?`. */
  function Slot(t: string): seq<SqlPiece> {
    [Lit(t), Hole]
  }

  /** The text each clause appends to `base_query`. */
  function Fragment(c: Clause): seq<SqlPiece> {
    match c
    case AnyField =>
      Slot(" AND (name LIKE ") + Slot(" OR brand LIKE ") + Slot(" OR tags LIKE ") + [Lit(")")]
    case BrandIs => Slot(" AND LOWER(brand) LIKE ")
    case PriceBelow => Slot(" AND price < ")
    case PriceBetween => Slot(" AND price BETWEEN ") + Slot(" AND ")
    case PriceAbove => Slot(" AND price > ")
    case TagsHave => Slot(" AND tags LIKE ")
  }

  function Render(ps: seq<SqlPiece>): string {
    if |ps| == 0 then ""
    else (match ps[0] case Lit(t) => t case Hole => "?") + Render(ps[1..])
  }

  function Holes(ps: seq<SqlPiece>): nat {
    if |ps| == 0 then 0 else (if ps[0].Hole? then 1 else 0) + Holes(ps[1..])
  }

  /** Number of parameters a clause consumes. */
  function Arity(c: Clause): nat {
    match c
    case AnyField => 3
    case PriceBetween => 2
    case _ => 1
  }

  function Fragments(cs: seq<Clause>): seq<SqlPiece> {
    if |cs| == 0 then [] else Fragment(cs[0]) + Fragments(cs[1..])
  }

  function Arities(cs: seq<Clause>): nat {
    if |cs| == 0 then 0 else Arity(cs[0]) + Arities(cs[1..])
  }

  const Head: string := "SELECT * FROM products WHERE 1=1"
  const Tail: string := " ORDER BY rating DESC LIMIT 5"

  /** The SQL text handed to `cursor.execute`. */
  function Sql(cs: seq<Clause>): string {
    Head + Render(Fragments(cs)) + Tail
  }

  /** Every literal piece is free of `?`. */
  predicate PlainPieces(ps: seq<SqlPiece>) {
    forall i :: 0 <= i < |ps| && ps[i].Lit? ==> '?' !in ps[i].text
  }

  lemma {:induction false} RenderConcat(a: seq<SqlPiece>, b: seq<SqlPiece>)
    ensures Render(a + b) == Render(a) + Render(b)
    decreases |a|
  {
    if |a| > 0 {
      assert (a + b)[0] == a[0];
      assert (a + b)[1..] == a[1..] + b;
      RenderConcat(a[1..], b);
    } else {
      assert a + b == b;
    }
  }

  lemma SlotShape(t: string)
    ensures Render(Slot(t)) == t + "?"
    ensures Holes(Slot(t)) == 1
    ensures '?' !in t ==> PlainPieces(Slot(t))
  {
    assert Slot(t)[1..] == [Hole];
    assert [Hole][1..] == [];
  }

  /** Plainness of pieces survives concatenation. */
  lemma PlainConcat(a: seq<SqlPiece>, b: seq<SqlPiece>)
    requires PlainPieces(a) && PlainPieces(b)
    ensures PlainPieces(a + b)
  {
    forall i | 0 <= i < |a + b| && (a + b)[i].Lit? ensures '?' !in (a + b)[i].text {
      if i >= |a| {
        assert (a + b)[i] == b[i - |a|];
      }
    }
  }

  lemma AnyFieldShape()
    ensures PlainPieces(Fragment(AnyField))
    ensures Holes(Fragment(AnyField)) == 3
  {
    var t1, t2, t3 := " AND (name LIKE ", " OR brand LIKE ", " OR tags LIKE ";
    assert '?' !in t1 && '?' !in t2 && '?' !in t3;
    SlotShape(t1);
    SlotShape(t2);
    SlotShape(t3);
    var close := [Lit(")")];
    assert close[1..] == [];
    assert Holes(close) == 0 && PlainPieces(close);
    HolesConcat(Slot(t1), Slot(t2));
    PlainConcat(Slot(t1), Slot(t2));
    HolesConcat(Slot(t1) + Slot(t2), Slot(t3));
    PlainConcat(Slot(t1) + Slot(t2), Slot(t3));
    HolesConcat(Slot(t1) + Slot(t2) + Slot(t3), close);
    PlainConcat(Slot(t1) + Slot(t2) + Slot(t3), close);
  }

  lemma BetweenShape()
    ensures PlainPieces(Fragment(PriceBetween))
    ensures Holes(Fragment(PriceBetween)) == 2
    ensures Render(Fragment(PriceBetween)) == " AND price BETWEEN ? AND ?"
  {
    var t1, t2 := " AND price BETWEEN ", " AND ";
    SlotShape(t1);
    SlotShape(t2);
    HolesConcat(Slot(t1), Slot(t2));
    PlainConcat(Slot(t1), Slot(t2));
    RenderConcat(Slot(t1), Slot(t2));
  }

  /** Each fragment has as many `?` as its clause consumes parameters. */
  lemma FragmentShape(c: Clause)
    ensures PlainPieces(Fragment(c))
    ensures Holes(Fragment(c)) == Arity(c)
  {
    match c
    case AnyField => AnyFieldShape();
    case PriceBetween => BetweenShape();
    case BrandIs => PlainSlot(" AND LOWER(brand) LIKE ");
    case PriceBelow => PlainSlot(" AND price < ");
    case PriceAbove => PlainSlot(" AND price > ");
    case TagsHave => PlainSlot(" AND tags LIKE ");
  }

  lemma PlainSlot(t: string)
    requires '?' !in t
    ensures PlainPieces(Slot(t)) && Holes(Slot(t)) == 1
  {
    SlotShape(t);
  }

  lemma {:induction false} RenderCount(ps: seq<SqlPiece>)
    requires PlainPieces(ps)
    ensures CountChar(Render(ps), '?') == Holes(ps)
    decreases |ps|
  {
    if |ps| > 0 {
      RenderCount(ps[1..]);
      var first := match ps[0] case Lit(t) => t case Hole => "?";
      CountCharConcat(first, Render(ps[1..]), '?');
    }
  }

  lemma {:induction false} FragmentsShape(cs: seq<Clause>)
    ensures PlainPieces(Fragments(cs))
    ensures Holes(Fragments(cs)) == Arities(cs)
    decreases |cs|
  {
    if |cs| > 0 {
      FragmentShape(cs[0]);
      FragmentsShape(cs[1..]);
      HolesConcat(Fragment(cs[0]), Fragments(cs[1..]));
    }
  }

  lemma {:induction false} HolesConcat(a: seq<SqlPiece>, b: seq<SqlPiece>)
    ensures Holes(a + b) == Holes(a) + Holes(b)
    decreases |a|
  {
    if |a| > 0 {
      assert (a + b)[1..] == a[1..] + b;
      HolesConcat(a[1..], b);
    } else {
      assert a + b == b;
    }
  }

  lemma {:induction false} AritiesConcat(a: seq<Clause>, b: seq<Clause>)
    ensures Arities(a + b) == Arities(a) + Arities(b)
    decreases |a|
  {
    if |a| > 0 {
      assert (a + b)[1..] == a[1..] + b;
      AritiesConcat(a[1..], b);
    } else {
      assert a + b == b;
    }
  }

  /** The clauses call for exactly as many parameters as were appended. */
  predicate Balanced(q: Query) {
    Arities(q.clauses) == |q.params|
  }

  const Empty: Query := Query([], [])

  function Append(a: Query, b: Query): (r: Query)
    ensures Balanced(a) && Balanced(b) ==> Balanced(r)
  {
    AritiesConcat(a.clauses, b.clauses);
    Query(a.clauses + b.clauses, a.params + b.params)
  }

  // ---------------------------------------------------------------------
  // The five criteria
  // ---------------------------------------------------------------------

  /** `s and s.lower() != "any"`: the criterion is given and is not "any". */
  predicate Active(s: Option<string>) {
    Present(s) && Lower(s.value) != "any"
  }

  /** `if query:` — one clause over name, brand and tags, with the pattern
      `%query%` appended three times. */
  function QueryPart(query: Option<string>): (q: Query)
    ensures Balanced(q)
    ensures !Present(query) ==> q == Empty
    ensures Present(query) ==>
      (q.clauses == [AnyField] && |q.params| == 3
       && q.params[0] == q.params[1] == q.params[2] == Str(Surround(query.value)))
  {
    if Present(query) then
      var p := Str(Surround(query.value));
      Query([AnyField], [p, p, p])
    else Empty
  }

  /** `if brand and brand.lower() != "any":` — one clause on the lower-cased
      brand column with the pattern `%brand.lower()%`. */
  function BrandPart(brand: Option<string>): (q: Query)
    ensures Balanced(q)
    ensures !Active(brand) ==> q == Empty
    ensures Active(brand) ==> q == Query([BrandIs], [Str(Surround(Lower(brand.value)))])
  {
    if Active(brand) then Query([BrandIs], [Str(Surround(Lower(brand.value)))]) else Empty
  }

  /** `if product_type and product_type.lower() != "any":` — one tags clause. */
  function TypePart(productType: Option<string>): (q: Query)
    ensures Balanced(q)
    ensures !Active(productType) ==> q == Empty
    ensures Active(productType) ==> q == Query([TagsHave], [Str(Surround(Lower(productType.value)))])
  {
    if Active(productType) then Query([TagsHave], [Str(Surround(Lower(productType.value)))])
    else Empty
  }

  /** `features.split(",") if "," in features else [features]`. */
  function FeatureList(features: string): (pieces: seq<string>)
    ensures pieces == Split(features, ",")
    ensures |pieces| == CountChar(features, ',') + 1
  {
    SplitCharCount(features, ',');
    if Contains(features, ",") then Split(features, ",")
    else
      SplitWithoutSeparator(features, ",");
      [features]
  }

  /** The search word made of one feature: `feature.strip().lower()`. */
  function FeatureWord(piece: string): string {
    Lower(Strip(piece))
  }

  /** One `tags LIKE ?` clause per piece, each with `%word%`. */
  function FeatureClauses(pieces: seq<string>): (q: Query)
    ensures Balanced(q)
    ensures |q.clauses| == |q.params| == |pieces|
    ensures forall i :: 0 <= i < |pieces| ==>
      q.clauses[i] == TagsHave && q.params[i] == Str(Surround(FeatureWord(pieces[i])))
  {
    if |pieces| == 0 then Empty
    else Append(Query([TagsHave], [Str(Surround(FeatureWord(pieces[0])))]), FeatureClauses(pieces[1..]))
  }

  /** `if features and features.lower() != "any":` — a tags clause per
      comma-separated feature, all of which must hold. */
  function FeaturePart(features: Option<string>): (q: Query)
    ensures Balanced(q)
    ensures !Active(features) ==> q == Empty
    ensures Active(features) ==> |q.clauses| == CountChar(features.value, ',') + 1
  {
    if Active(features) then FeatureClauses(FeatureList(features.value)) else Empty
  }

  // ---------------------------------------------------------------------
  // The price-range classifier
  // ---------------------------------------------------------------------

  /** The price condition a price-range text asks for. */
  datatype PriceRule = NoRule | Below(limit: real) | Between(lo: real, hi: real) | Above(limit: real)

  /** `float(text)` raised on this text. */
  datatype BuildError = BadPrice(text: string)

  /** `price_range.split("$")[1]`: the text after the first `$`, up to the next. */
  function AfterDollar(t: string): string
    requires Contains(t, "$")
  {
    ContainsChar(t, '$');
    SplitCharCount(t, '$');
    Split(t, "$")[1]
  }

  /** A bound with the source's default when the text has no `$`;
      `parse` stands for Python's `float`. */
  function Limit(t: string, default: real, parse: string -> Option<real>): Result<real, BuildError> {
    if Contains(t, "$") then
      match parse(AfterDollar(t))
      case None => Err(BadPrice(AfterDollar(t)))
      case Some(x) => Ok(x)
    else Ok(default)
  }

  /** The `if price_range:` block, checks in the source's order: "under"
      (case-insensitive), then "-", then "over" (case-insensitive). */
  function ClassifyPrice(priceRange: Option<string>, parse: string -> Option<real>): (r: Result<PriceRule, BuildError>)
    ensures !Present(priceRange) ==> r == Ok(NoRule)
    ensures Present(priceRange) && Contains(Lower(priceRange.value), "under") ==>
      (r.Ok? ==> r.value.Below?)
      && (!Contains(priceRange.value, "$") ==> r == Ok(Below(100.0)))
    ensures (Present(priceRange) && !Contains(Lower(priceRange.value), "under")
             && Contains(priceRange.value, "-")) ==>
      (|Split(Replace(priceRange.value, "$", ""), "-")| != 2 ==> r == Ok(NoRule))
      && (|Split(Replace(priceRange.value, "$", ""), "-")| == 2 ==> (r.Ok? ==> r.value.Between?))
    ensures (Present(priceRange) && !Contains(Lower(priceRange.value), "under")
             && !Contains(priceRange.value, "-") && Contains(Lower(priceRange.value), "over")) ==>
      (r.Ok? ==> r.value.Above?)
      && (!Contains(priceRange.value, "$") ==> r == Ok(Above(400.0)))
    ensures (Present(priceRange) && !Contains(Lower(priceRange.value), "under")
             && !Contains(priceRange.value, "-") && !Contains(Lower(priceRange.value), "over")) ==>
      r == Ok(NoRule)
    ensures r.Err? ==> Present(priceRange) && (exists k :: parse(k).None? && r.error == BadPrice(k))
    ensures (Present(priceRange) && Contains(priceRange.value, "$")
             && (Contains(Lower(priceRange.value), "under")
                 || (!Contains(priceRange.value, "-") && Contains(Lower(priceRange.value), "over")))) ==>
      (r.Ok? <==> parse(AfterDollar(priceRange.value)).Some?)
      && (r.Ok? ==> r.value.limit == parse(AfterDollar(priceRange.value)).value)
    ensures (Present(priceRange) && !Contains(Lower(priceRange.value), "under")
             && Contains(priceRange.value, "-")
             && |Split(Replace(priceRange.value, "$", ""), "-")| == 2) ==>
      var parts := Split(Replace(priceRange.value, "$", ""), "-");
      (r.Ok? <==> parse(parts[0]).Some? && parse(parts[1]).Some?)
      && (r.Ok? ==> r.value == Between(parse(parts[0]).value, parse(parts[1]).value))
  {
    if !Present(priceRange) then Ok(NoRule)
    else
      var t := priceRange.value;
      if Contains(Lower(t), "under") then
        match Limit(t, 100.0, parse)
        case Err(e) => Err(e)
        case Ok(x) => Ok(Below(x))
      else if Contains(t, "-") then
        var parts := Split(Replace(t, "$", ""), "-");
        if |parts| == 2 then
          match parse(parts[0])
          case None => Err(BadPrice(parts[0]))
          case Some(lo) =>
            match parse(parts[1])
            case None => Err(BadPrice(parts[1]))
            case Some(hi) => Ok(Between(lo, hi))
        else Ok(NoRule)
      else if Contains(Lower(t), "over") then
        match Limit(t, 400.0, parse)
        case Err(e) => Err(e)
        case Ok(x) => Ok(Above(x))
      else Ok(NoRule)
  }

  /** The clause and parameters a price rule appends. */
  function PriceQuery(rule: PriceRule): (q: Query)
    ensures Balanced(q)
  {
    match rule
    case NoRule => Empty
    case Below(x) => Query([PriceBelow], [Num(x)])
    case Between(lo, hi) => Query([PriceBetween], [Num(lo), Num(hi)])
    case Above(x) => Query([PriceAbove], [Num(x)])
  }

  /** `DatabaseManager.search_products`' WHERE construction. A price text
      that `float` cannot read makes the whole call fail. */
  function Build(c: Criteria, parse: string -> Option<real>): (r: Result<Query, BuildError>)
    ensures r.Ok? ==> Balanced(r.value)
    ensures r.Err? <==> ClassifyPrice(c.priceRange, parse).Err?
  {
    match ClassifyPrice(c.priceRange, parse)
    case Err(e) => Err(e)
    case Ok(rule) => Ok(Assemble(c, rule))
  }

  /** The five parts appended in the source's order. */
  function Assemble(c: Criteria, rule: PriceRule): (q: Query)
    ensures Balanced(q)
  {
    Append(Append(Append(Append(QueryPart(c.query), BrandPart(c.brand)),
      PriceQuery(rule)), TypePart(c.productType)), FeaturePart(c.features))
  }

  lemma FixedTextPlain()
    ensures '?' !in Head
    ensures '?' !in Tail
  {
  }

  /** The final SQL text has exactly as many `?` placeholders as parameters
      were appended, so SQLite accepts the binding. */
  lemma PlaceholdersMatchParams(q: Query)
    requires Balanced(q)
    ensures CountChar(Sql(q.clauses), '?') == |q.params|
  {
    FragmentsShape(q.clauses);
    RenderCount(Fragments(q.clauses));
    FixedTextPlain();
    CountBetween(Head, Render(Fragments(q.clauses)), Tail, '?');
  }

  /** Text around `body` that lacks `c` adds no occurrence of it. */
  lemma CountBetween(h: string, body: string, t: string, c: char)
    requires c !in h && c !in t
    ensures CountChar(h + body + t, c) == CountChar(body, c)
  {
    CountCharConcat(h, body, c);
    CountCharConcat(h + body, t, c);
  }

  /** Every query `Build` produces satisfies the placeholder agreement. */
  lemma BuildPlaceholders(c: Criteria, parse: string -> Option<real>)
    requires Build(c, parse).Ok?
    ensures CountChar(Sql(Build(c, parse).value.clauses), '?') == |Build(c, parse).value.params|
  {
    PlaceholdersMatchParams(Build(c, parse).value);
  }

  // ---------------------------------------------------------------------
  // Binding and the meaning of a query
  // ---------------------------------------------------------------------

  /** A clause with its parameters bound: the condition a row must meet. */
  datatype Filter =
    | AnyFieldLike(namePat: string, brandPat: string, tagsPat: string)
    | LowerBrandLike(pat: string)
    | PriceLt(limit: real)
    | PriceIn(lo: real, hi: real)
    | PriceGt(limit: real)
    | TagsLike(pat: string)

  /** One clause bound to exactly its own parameters; `None` when a pattern
      meets a number or a bound meets a pattern. SQLite itself would bind
      such a value and compare it by its type rules; the model treats it
      as a failure, which no assembled query reaches (`AssembleMeaning`). */
  function BindOne(c: Clause, ps: seq<Param>): Option<Filter>
    requires |ps| == Arity(c)
  {
    match c
    case AnyField =>
      if ps[0].Str? && ps[1].Str? && ps[2].Str? then Some(AnyFieldLike(ps[0].s, ps[1].s, ps[2].s)) else None
    case BrandIs => if ps[0].Str? then Some(LowerBrandLike(ps[0].s)) else None
    case TagsHave => if ps[0].Str? then Some(TagsLike(ps[0].s)) else None
    case PriceBelow => if ps[0].Num? then Some(PriceLt(ps[0].x)) else None
    case PriceAbove => if ps[0].Num? then Some(PriceGt(ps[0].x)) else None
    case PriceBetween => if ps[0].Num? && ps[1].Num? then Some(PriceIn(ps[0].x, ps[1].x)) else None
  }

  /** SQLite's positional binding: the clauses take their parameters left to
      right; a count mismatch is an error (`None`). */
  function Bind(cs: seq<Clause>, ps: seq<Param>): (r: Option<seq<Filter>>)
    ensures r.Some? ==> |r.value| == |cs| && Arities(cs) == |ps|
    decreases |cs|
  {
    if |cs| == 0 then (if |ps| == 0 then Some([]) else None)
    else
      var k := Arity(cs[0]);
      if |ps| < k then None
      else
        match BindOne(cs[0], ps[..k])
        case None => None
        case Some(f) =>
          match Bind(cs[1..], ps[k..])
          case None => None
          case Some(fs) => Some([f] + fs)
  }

  function BindQuery(q: Query): Option<seq<Filter>> {
    Bind(q.clauses, q.params)
  }

  function Both(a: Option<seq<Filter>>, b: Option<seq<Filter>>): Option<seq<Filter>> {
    if a.Some? && b.Some? then Some(a.value + b.value) else None
  }

  /** One bound clause in front of the binding of the rest. */
  function Prepend(f: Option<Filter>, rest: Option<seq<Filter>>): Option<seq<Filter>> {
    if f.Some? && rest.Some? then Some([f.value] + rest.value) else None
  }

  /** `Bind` on a non-empty clause list takes the first clause's parameters. */
  lemma BindCons(cs: seq<Clause>, ps: seq<Param>)
    requires |cs| > 0 && Arity(cs[0]) <= |ps|
    ensures Bind(cs, ps) == Prepend(BindOne(cs[0], ps[..Arity(cs[0])]), Bind(cs[1..], ps[Arity(cs[0])..]))
  {
  }

  lemma PrependBoth(f: Option<Filter>, x: Option<seq<Filter>>, y: Option<seq<Filter>>)
    ensures Both(Prepend(f, x), y) == Prepend(f, Both(x, y))
  {
    if f.Some? && x.Some? && y.Some? {
      assert [f.value] + (x.value + y.value) == ([f.value] + x.value) + y.value;
    }
  }

  lemma {:induction false} BindConcat(ca: seq<Clause>, pa: seq<Param>, cb: seq<Clause>, pb: seq<Param>)
    requires Arities(ca) == |pa|
    ensures Bind(ca + cb, pa + pb) == Both(Bind(ca, pa), Bind(cb, pb))
    decreases |ca|
  {
    if |ca| == 0 {
      assert ca + cb == cb;
      assert pa + pb == pb;
      assert Bind(ca, pa) == Some([]);
      if Bind(cb, pb).Some? {
        assert [] + Bind(cb, pb).value == Bind(cb, pb).value;
      }
    } else {
      var k := Arity(ca[0]);
      assert (ca + cb)[0] == ca[0];
      assert (ca + cb)[1..] == ca[1..] + cb;
      assert (pa + pb)[..k] == pa[..k];
      assert (pa + pb)[k..] == pa[k..] + pb;
      BindCons(ca, pa);
      BindCons(ca + cb, pa + pb);
      BindConcat(ca[1..], pa[k..], cb, pb);
      PrependBoth(BindOne(ca[0], pa[..k]), Bind(ca[1..], pa[k..]), Bind(cb, pb));
    }
  }

  lemma BindAppend(a: Query, b: Query)
    requires Balanced(a)
    ensures BindQuery(Append(a, b)) == Both(BindQuery(a), BindQuery(b))
  {
    BindConcat(a.clauses, a.params, b.clauses, b.params);
  }

  lemma BindSingle(c: Clause, ps: seq<Param>)
    requires |ps| == Arity(c)
    ensures Bind([c], ps) == if BindOne(c, ps).Some? then Some([BindOne(c, ps).value]) else None
  {
    assert ps[..Arity(c)] == ps;
    assert [c][0] == c;
    assert [c][1..] == [];
    assert ps[Arity(c)..] == [];
    assert Bind([], []) == Some([]);
    if BindOne(c, ps).Some? {
      assert [BindOne(c, ps).value] + [] == [BindOne(c, ps).value];
    }
  }

  predicate Holds(f: Filter, p: Product) {
    match f
    case AnyFieldLike(n, b, t) => Like(p.name, n) || Like(p.brand, b) || Like(p.tags, t)
    case LowerBrandLike(pat) => Like(Lower(p.brand), pat)
    case PriceLt(x) => p.price < x
    case PriceIn(lo, hi) => lo <= p.price <= hi
    case PriceGt(x) => p.price > x
    case TagsLike(pat) => Like(p.tags, pat)
  }

  /** The row passes every filter of the WHERE clause. */
  predicate Passes(fs: seq<Filter>, p: Product) {
    forall i :: 0 <= i < |fs| ==> Holds(fs[i], p)
  }

  lemma PassesSingle(f: Filter, p: Product)
    ensures Passes([f], p) <==> Holds(f, p)
  {
    assert [f][0] == f;
  }

  lemma PassesConcat(a: seq<Filter>, b: seq<Filter>, p: Product)
    ensures Passes(a + b, p) <==> Passes(a, p) && Passes(b, p)
  {
    if Passes(a, p) && Passes(b, p) {
      forall i | 0 <= i < |a + b| ensures Holds((a + b)[i], p) {
        if i >= |a| {
          assert (a + b)[i] == b[i - |a|];
        } else {
          assert (a + b)[i] == a[i];
        }
      }
    }
    if Passes(a + b, p) {
      forall i | 0 <= i < |a| ensures Holds(a[i], p) {
        assert (a + b)[i] == a[i];
      }
      forall i | 0 <= i < |b| ensures Holds(b[i], p) {
        assert (a + b)[|a| + i] == b[i];
      }
    }
  }

  // ---------------------------------------------------------------------
  // What the criteria ask for, stated without SQL
  // ---------------------------------------------------------------------

  /** Case-insensitive containment, as `LIKE '%t%'` decides it. */
  predicate ContainsFold(s: string, t: string) {
    Contains(Lower(s), Lower(t))
  }

  predicate InRange(rule: PriceRule, price: real) {
    match rule
    case NoRule => true
    case Below(x) => price < x
    case Between(lo, hi) => lo <= price <= hi
    case Above(x) => price > x
  }

  /** Every feature word of a feature list occurs in `tags`. */
  predicate HasFeatures(tags: string, pieces: seq<string>) {
    forall i :: 0 <= i < |pieces| ==> ContainsFold(tags, FeatureWord(pieces[i]))
  }

  /** The product is what criteria `c` with price rule `rule` ask for. */
  predicate Wanted(c: Criteria, rule: PriceRule, p: Product) {
    && (Present(c.query) ==>
          ContainsFold(p.name, c.query.value) || ContainsFold(p.brand, c.query.value)
          || ContainsFold(p.tags, c.query.value))
    && (Active(c.brand) ==> ContainsFold(p.brand, c.brand.value))
    && InRange(rule, p.price)
    && (Active(c.productType) ==> ContainsFold(p.tags, c.productType.value))
    && (Active(c.features) ==> HasFeatures(p.tags, FeatureList(c.features.value)))
  }

  /** The criteria carry no LIKE wildcard of their own, so the patterns the
      builder makes mean plain containment. */
  predicate LiteralCriteria(c: Criteria) {
    && (c.query.Some? ==> Literal(c.query.value))
    && (c.brand.Some? ==> Literal(c.brand.value))
    && (c.productType.Some? ==> Literal(c.productType.value))
    && (c.features.Some? ==> Literal(c.features.value))
  }

  lemma QueryPartMeaning(query: Option<string>, p: Product)
    ensures BindQuery(QueryPart(query)).Some?
    ensures (query.Some? ==> Literal(query.value)) ==>
      (Passes(BindQuery(QueryPart(query)).value, p) <==>
         (Present(query) ==>
            ContainsFold(p.name, query.value) || ContainsFold(p.brand, query.value)
            || ContainsFold(p.tags, query.value)))
  {
    if Present(query) && Literal(query.value) {
      BindSingle(AnyField, QueryPart(query).params);
      PassesSingle(AnyFieldLike(Surround(query.value), Surround(query.value), Surround(query.value)), p);
      LikeContains(p.name, query.value);
      LikeContains(p.brand, query.value);
      LikeContains(p.tags, query.value);
    }
  }

  /** The lower-cased brand pattern matched against `LOWER(brand)` is
      case-insensitive containment of the brand text. */
  lemma BrandPartMeaning(brand: Option<string>, p: Product)
    ensures BindQuery(BrandPart(brand)).Some?
    ensures (brand.Some? ==> Literal(brand.value)) ==>
      (Passes(BindQuery(BrandPart(brand)).value, p) <==>
         (Active(brand) ==> ContainsFold(p.brand, brand.value)))
  {
    if Active(brand) && Literal(brand.value) {
      BindSingle(BrandIs, BrandPart(brand).params);
      PassesSingle(LowerBrandLike(Surround(Lower(brand.value))), p);
      LiteralLower(brand.value);
      LikeContains(Lower(p.brand), Lower(brand.value));
      LowerIdempotent(p.brand);
      LowerIdempotent(brand.value);
    }
  }

  lemma TypePartMeaning(productType: Option<string>, p: Product)
    ensures BindQuery(TypePart(productType)).Some?
    ensures (productType.Some? ==> Literal(productType.value)) ==>
      (Passes(BindQuery(TypePart(productType)).value, p) <==>
         (Active(productType) ==> ContainsFold(p.tags, productType.value)))
  {
    if Active(productType) && Literal(productType.value) {
      BindSingle(TagsHave, TypePart(productType).params);
      PassesSingle(TagsLike(Surround(Lower(productType.value))), p);
      LiteralLower(productType.value);
      LikeContains(p.tags, Lower(productType.value));
      LowerIdempotent(productType.value);
    }
  }

  lemma PriceQueryMeaning(rule: PriceRule, p: Product)
    ensures BindQuery(PriceQuery(rule)).Some?
    ensures Passes(BindQuery(PriceQuery(rule)).value, p) <==> InRange(rule, p.price)
  {
    match rule
    case NoRule =>
    case Below(x) =>
      BindSingle(PriceBelow, [Num(x)]);
      PassesSingle(PriceLt(x), p);
    case Between(lo, hi) =>
      BindSingle(PriceBetween, [Num(lo), Num(hi)]);
      PassesSingle(PriceIn(lo, hi), p);
    case Above(x) =>
      BindSingle(PriceAbove, [Num(x)]);
      PassesSingle(PriceGt(x), p);
  }

  /** A feature word cut from a wildcard-free list is itself wildcard-free. */
  lemma FeatureWordLiteral(features: string, i: int)
    requires Literal(features)
    requires 0 <= i < |FeatureList(features)|
    ensures Literal(FeatureWord(FeatureList(features)[i]))
  {
    var piece := FeatureList(features)[i];
    var st := Strip(piece);
    forall j | 0 <= j < |st|
      ensures !IsWildcard(st[j])
    {
      var k :| 0 <= k < |piece| && piece[k] == st[j];
      var m :| 0 <= m < |features| && features[m] == piece[k];
    }
    LiteralLower(st);
  }

  /** The filters a feature list binds to: one `tags LIKE '%word%'` each. */
  lemma {:induction false} FeatureClausesBind(pieces: seq<string>)
    ensures BindQuery(FeatureClauses(pieces)).Some?
    ensures |BindQuery(FeatureClauses(pieces)).value| == |pieces|
    ensures forall i :: 0 <= i < |pieces| ==>
      BindQuery(FeatureClauses(pieces)).value[i] == TagsLike(Surround(FeatureWord(pieces[i])))
    decreases |pieces|
  {
    if |pieces| > 0 {
      var w := Surround(FeatureWord(pieces[0]));
      var head := Query([TagsHave], [Str(w)]);
      BindSingle(TagsHave, head.params);
      assert BindQuery(head) == Some([TagsLike(w)]);
      var tail := FeatureClauses(pieces[1..]);
      assert FeatureClauses(pieces) == Append(head, tail);
      FeatureClausesBind(pieces[1..]);
      BindAppend(head, tail);
      var rest := BindQuery(tail).value;
      var fs := [TagsLike(w)] + rest;
      assert BindQuery(FeatureClauses(pieces)) == Some(fs);
      forall i | 0 <= i < |pieces|
        ensures fs[i] == TagsLike(Surround(FeatureWord(pieces[i])))
      {
        if i > 0 {
          assert fs[i] == rest[i - 1];
          assert pieces[1..][i - 1] == pieces[i];
        }
      }
    }
  }

  lemma TagsLikeMeaning(w: string, p: Product)
    requires Literal(w)
    ensures Holds(TagsLike(Surround(w)), p) <==> ContainsFold(p.tags, w)
  {
    LikeContains(p.tags, w);
  }

  lemma FeatureClausesMeaning(pieces: seq<string>, p: Product)
    requires forall i :: 0 <= i < |pieces| ==> Literal(FeatureWord(pieces[i]))
    ensures BindQuery(FeatureClauses(pieces)).Some?
    ensures Passes(BindQuery(FeatureClauses(pieces)).value, p) <==> HasFeatures(p.tags, pieces)
  {
    FeatureClausesBind(pieces);
    var fs := BindQuery(FeatureClauses(pieces)).value;
    FilterwiseIff(fs, pieces, p);
  }

  /** The filters of a feature list hold one for one with its words. */
  lemma FilterwiseIff(fs: seq<Filter>, pieces: seq<string>, p: Product)
    requires |fs| == |pieces|
    requires forall i :: 0 <= i < |pieces| ==> Literal(FeatureWord(pieces[i]))
    requires forall i :: 0 <= i < |pieces| ==> fs[i] == TagsLike(Surround(FeatureWord(pieces[i])))
    ensures Passes(fs, p) <==> HasFeatures(p.tags, pieces)
  {
    forall i | 0 <= i < |pieces|
      ensures Holds(fs[i], p) <==> ContainsFold(p.tags, FeatureWord(pieces[i]))
    {
      TagsLikeMeaning(FeatureWord(pieces[i]), p);
    }
  }

  lemma FeaturePartMeaning(features: Option<string>, p: Product)
    ensures BindQuery(FeaturePart(features)).Some?
    ensures (features.Some? ==> Literal(features.value)) ==>
      (Passes(BindQuery(FeaturePart(features)).value, p) <==>
         (Active(features) ==> HasFeatures(p.tags, FeatureList(features.value))))
  {
    if Active(features) && !Literal(features.value) {
      FeatureClausesBind(FeatureList(features.value));
    }
    if Active(features) && Literal(features.value) {
      var pieces := FeatureList(features.value);
      forall i | 0 <= i < |pieces| ensures Literal(FeatureWord(pieces[i])) {
        FeatureWordLiteral(features.value, i);
      }
      FeatureClausesMeaning(pieces, p);
    }
  }

  lemma AssembleMeaning(c: Criteria, rule: PriceRule, p: Product)
    ensures BindQuery(Assemble(c, rule)).Some?
    ensures LiteralCriteria(c) ==>
      (Passes(BindQuery(Assemble(c, rule)).value, p) <==> Wanted(c, rule, p))
    ensures Passes(BindQuery(Assemble(c, rule)).value, p) ==> InRange(rule, p.price)
  {
    var q1, q2, q3 := QueryPart(c.query), BrandPart(c.brand), PriceQuery(rule);
    var q4, q5 := TypePart(c.productType), FeaturePart(c.features);
    QueryPartMeaning(c.query, p);
    BrandPartMeaning(c.brand, p);
    PriceQueryMeaning(rule, p);
    TypePartMeaning(c.productType, p);
    FeaturePartMeaning(c.features, p);
    var f1, f2, f3 := BindQuery(q1).value, BindQuery(q2).value, BindQuery(q3).value;
    var f4, f5 := BindQuery(q4).value, BindQuery(q5).value;
    var a12 := Append(q1, q2);
    BindAppend(q1, q2);
    PassesConcat(f1, f2, p);
    var a123 := Append(a12, q3);
    BindAppend(a12, q3);
    PassesConcat(f1 + f2, f3, p);
    var a1234 := Append(a123, q4);
    BindAppend(a123, q4);
    PassesConcat(f1 + f2 + f3, f4, p);
    BindAppend(a1234, q5);
    PassesConcat(f1 + f2 + f3 + f4, f5, p);
  }

  /** What `Build` asks of a row is exactly what the criteria ask for: its
      query binds without error and a product passes the WHERE clause iff
      it is `Wanted` under the classified price rule. */
  lemma BuildMeaning(c: Criteria, parse: string -> Option<real>, p: Product)
    requires LiteralCriteria(c)
    requires Build(c, parse).Ok?
    ensures ClassifyPrice(c.priceRange, parse).Ok?
    ensures BindQuery(Build(c, parse).value).Some?
    ensures Passes(BindQuery(Build(c, parse).value).value, p) <==>
      Wanted(c, ClassifyPrice(c.priceRange, parse).value, p)
  {
    AssembleMeaning(c, ClassifyPrice(c.priceRange, parse).value, p);
  }
}
