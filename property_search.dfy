/** The filtered property search of the data-access layer: the query text and
    parameter array that `getAllProperties` assembles before handing them to the
    connection pool. */
module PropertySearch {
  import opened Wrappers
  import opened Truthiness
  import opened Sql

  /** The search options a caller may pass; `None` is an option left out. */
  datatype SearchOptions = SearchOptions(
    city: Option<string>,
    ownerId: Option<int>,
    minimumPricePerNight: Option<int>,
    maximumPricePerNight: Option<int>,
    minimumRating: Option<int>)

  predicate GivenPriceRange(o: SearchOptions) {
    GivenNumber(o.minimumPricePerNight) && GivenNumber(o.maximumPricePerNight)
  }

  /** A filter that goes into the WHERE clause. */
  predicate HasWhereFilter(o: SearchOptions) {
    GivenText(o.city) || GivenNumber(o.ownerId) || GivenPriceRange(o)
  }

  const DefaultLimit: int := 10

  const BaseSelect: string :=
    "SELECT properties.*, avg(property_reviews.rating) as average_rating\nFROM properties\nJOIN property_reviews ON properties.id = property_id\n"
  const Where: string := " WHERE"
  const And: string := " AND"
  const CityLike: string := " city LIKE "
  const OwnerIs: string := " owner_id = "
  const CostBetween: string := " cost_per_night BETWEEN "
  const BetweenAnd: string := " AND "
  const GroupBy: string := "\nGROUP BY properties.id\n"
  const HavingRating: string := " HAVING avg(property_reviews.rating) >= "
  const OrderByLimit: string := "\nORDER BY cost_per_night\nLIMIT "
  const Terminator: string := ";\n"

  /** Text that only a WHERE-level condition contributes. */
  predicate ConditionText(t: string) {
    t == Where || t == And || t == CityLike || t == OwnerIs || t == CostBetween || t == BetweenAnd
  }

  /** The city parameter: the city wrapped in `%` wildcards, for LIKE. */
  function LikePattern(city: string): string {
    "%" + city + "%"
  }

  /** The pattern is the city between two wildcards, so the city can be read
      back from it. */
  lemma {:induction false} LikePatternWraps(city: string)
    ensures var p := LikePattern(city);
      |p| == |city| + 2 && p[0] == '%' && p[|p| - 1] == '%' && p[1..|p| - 1] == city
  {
  }

  /** A price in dollars as the cents stored in `cost_per_night`. */
  function Cents(dollars: int): int {
    dollars * 100
  }

  // ---------------------------------------------------------------------------
  // The reference definition: a list of filters joined by WHERE/AND

  datatype Filter = City(city: string) | Owner(ownerId: int) | PriceRange(minimum: int, maximum: int)

  function CityFilter(o: SearchOptions): seq<Filter> {
    if GivenText(o.city) then [City(o.city.value)] else []
  }

  function OwnerFilter(o: SearchOptions): seq<Filter> {
    if GivenNumber(o.ownerId) then [Owner(o.ownerId.value)] else []
  }

  /** The price range applies only when both bounds are given. */
  function PriceFilter(o: SearchOptions): seq<Filter> {
    if GivenPriceRange(o)
    then [PriceRange(o.minimumPricePerNight.value, o.maximumPricePerNight.value)]
    else []
  }

  /** The WHERE-level filters a search applies, in the order the source tests them. */
  function WhereFilters(o: SearchOptions): (fs: seq<Filter>)
    ensures fs == [] <==> !HasWhereFilter(o)
  {
    CityFilter(o) + OwnerFilter(o) + PriceFilter(o)
  }

  function FilterParams(f: Filter): seq<Param> {
    match f
    case City(c) => [Text(LikePattern(c))]
    case Owner(id) => [Num(id)]
    case PriceRange(lo, hi) => [Num(Cents(lo)), Num(Cents(hi))]
  }

  /** The condition text of `f` whose first placeholder is `$next`. */
  function FilterTokens(f: Filter, next: nat): seq<Token> {
    match f
    case City(_) => [Sql(CityLike), Placeholder(next)]
    case Owner(_) => [Sql(OwnerIs), Placeholder(next)]
    case PriceRange(_, _) => [Sql(CostBetween), Placeholder(next), Sql(BetweenAnd), Placeholder(next + 1)]
  }

  function Connective(first: bool): string {
    if first then Where else And
  }

  /** The conditions `fs` with their parameters numbered from `$1`: the first
      introduced by WHERE, every later one by AND. */
  function Conditions(fs: seq<Filter>): (q: Query)
    decreases |fs|
  {
    if fs == [] then Query([], [])
    else
      var init := Conditions(fs[..|fs| - 1]);
      var f := fs[|fs| - 1];
      Query(init.tokens + [Sql(Connective(|fs| == 1))] + FilterTokens(f, |init.params| + 1),
            init.params + FilterParams(f))
  }

  /** The base SELECT followed by the conditions `where`. */
  function Select(where: Query): Query {
    Query([Sql(BaseSelect)] + where.tokens, where.params)
  }

  /** `head` followed by GROUP BY, and by the HAVING clause on the next
      placeholder when a minimum rating is given. */
  function Grouped(head: Query, minimumRating: Option<int>): Query {
    if GivenNumber(minimumRating)
    then Query(head.tokens + [Sql(GroupBy)] + [Sql(HavingRating), Placeholder(|head.params| + 1)],
               head.params + [Num(minimumRating.value)])
    else Query(head.tokens + [Sql(GroupBy)], head.params)
  }

  /** `head` ordered by price, with the limit as its last parameter. */
  function Ordered(head: Query, limit: int): Query {
    Query(head.tokens + [Sql(OrderByLimit), Placeholder(|head.params| + 1), Sql(Terminator)],
          head.params + [Num(limit)])
  }

  /** The query and parameters of a search with the given options and limit. */
  function SearchQuery(o: SearchOptions, limit: int): Query {
    Ordered(Grouped(Select(Conditions(WhereFilters(o))), o.minimumRating), limit)
  }

  // ---------------------------------------------------------------------------
  // What the search means: the query with every value written in its place

  function FilterPieces(f: Filter): seq<Piece> {
    match f
    case City(c) => [Word(CityLike), Value(Text(LikePattern(c)))]
    case Owner(id) => [Word(OwnerIs), Value(Num(id))]
    case PriceRange(lo, hi) => [Word(CostBetween), Value(Num(Cents(lo))), Word(BetweenAnd), Value(Num(Cents(hi)))]
  }

  function IntendedConditions(fs: seq<Filter>): seq<Piece>
    decreases |fs|
  {
    if fs == [] then []
    else IntendedConditions(fs[..|fs| - 1]) + [Word(Connective(|fs| == 1))] + FilterPieces(fs[|fs| - 1])
  }

  function IntendedQuery(o: SearchOptions, limit: int): seq<Piece> {
    [Word(BaseSelect)] + IntendedConditions(WhereFilters(o)) + [Word(GroupBy)]
    + (if GivenNumber(o.minimumRating) then [Word(HavingRating), Value(Num(o.minimumRating.value))] else [])
    + [Word(OrderByLimit), Value(Num(limit)), Word(Terminator)]
  }


  // ---------------------------------------------------------------------------
  // The builder as the source writes it

  /** Builds the search query step by step: the WHERE-level filters first (see
      `AppendConditions`), then GROUP BY; the rating filter goes into HAVING after
      GROUP BY; the limit is bound last. An absent `limit` is the default 10. */
  method GetAllProperties(options: SearchOptions, limit: Option<int>)
    returns (queryString: string, queryParams: seq<Param>)
    ensures queryString == Render(SearchQuery(options, limit.GetOr(DefaultLimit)).tokens)
    ensures queryParams == SearchQuery(options, limit.GetOr(DefaultLimit)).params
  {
    var lim := limit.GetOr(DefaultLimit);
    ghost var select := Select(Conditions(WhereFilters(options)));
    queryString, queryParams := AppendConditions(options);
    queryString, queryParams := AppendGroupBy(options, queryString, queryParams, select);

    ghost var head := Grouped(select, options.minimumRating);
    ghost var groupedSql := queryString;
    queryParams := queryParams + [Num(lim)];
    queryString := queryString + OrderByLimit + "$" + Decimal(|queryParams|) + Terminator;
    AddLimit(head, lim, groupedSql, queryString);
  }

  /** GROUP BY after the query so far, `head`; a non-zero minimum rating pushes
      the rating and appends `HAVING avg(property_reviews.rating) >= $n`. */
  method AppendGroupBy(options: SearchOptions, sql: string, params: seq<Param>, ghost head: Query)
    returns (sql': string, params': seq<Param>)
    requires sql == Render(head.tokens)
    requires params == head.params
    ensures sql' == Render(Grouped(head, options.minimumRating).tokens)
    ensures params' == Grouped(head, options.minimumRating).params
  {
    sql', params' := sql + GroupBy, params;
    if GivenNumber(options.minimumRating) {
      params' := params' + [Num(options.minimumRating.value)];
      sql' := sql' + HavingRating + "$" + Decimal(|params'|);
      AddHaving(head.tokens, |params'|, sql, sql');
    } else {
      AddGroupBy(head.tokens, sql, sql');
    }
  }

  /** `sql` and `params` are the base SELECT followed by the conditions `fs`,
      and `hasWhere` records whether a WHERE has been written. */
  predicate Built(sql: string, params: seq<Param>, hasWhere: bool, fs: seq<Filter>) {
    && sql == Render([Sql(BaseSelect)] + Conditions(fs).tokens)
    && params == Conditions(fs).params
    && hasWhere == (fs != [])
  }

  /** The first part of the builder: the base SELECT followed by the condition
      of each WHERE-level filter that is present, in the source's order. */
  method AppendConditions(options: SearchOptions) returns (queryString: string, queryParams: seq<Param>)
    ensures queryString == Render([Sql(BaseSelect)] + Conditions(WhereFilters(options)).tokens)
    ensures queryParams == Conditions(WhereFilters(options)).params
  {
    RenderBase(BaseSelect);
    var hasWhere;
    queryString, queryParams, hasWhere := AppendCity(options, BaseSelect, [], false, []);
    queryString, queryParams, hasWhere := AppendOwner(options, queryString, queryParams, hasWhere, CityFilter(options));
    queryString, queryParams, hasWhere :=
      AppendPriceRange(options, queryString, queryParams, hasWhere, CityFilter(options) + OwnerFilter(options));
  }

  /** A non-empty city pushes its LIKE pattern and appends `city LIKE $n`,
      introduced by WHERE when it is the first condition and by AND otherwise. */
  method AppendCity(options: SearchOptions, sql: string, params: seq<Param>, hasWhere: bool, ghost fs: seq<Filter>)
    returns (sql': string, params': seq<Param>, hasWhere': bool)
    requires Built(sql, params, hasWhere, fs)
    ensures Built(sql', params', hasWhere', fs + CityFilter(options))
  {
    sql', params', hasWhere' := sql, params, hasWhere;
    if GivenText(options.city) {
      params' := params' + [Text(LikePattern(options.city.value))];
      sql' := sql' + (if hasWhere' then And else Where) + CityLike + "$" + Decimal(|params'|);
      AddFilter([Sql(BaseSelect)], fs, City(options.city.value), sql, sql');
      hasWhere' := true;
    } else {
      assert fs + CityFilter(options) == fs;
    }
  }

  /** A non-zero owner id pushes the id and appends `owner_id = $n`. */
  method AppendOwner(options: SearchOptions, sql: string, params: seq<Param>, hasWhere: bool, ghost fs: seq<Filter>)
    returns (sql': string, params': seq<Param>, hasWhere': bool)
    requires Built(sql, params, hasWhere, fs)
    ensures Built(sql', params', hasWhere', fs + OwnerFilter(options))
  {
    sql', params', hasWhere' := sql, params, hasWhere;
    if GivenNumber(options.ownerId) {
      params' := params' + [Num(options.ownerId.value)];
      sql' := sql' + (if hasWhere' then And else Where) + OwnerIs + "$" + Decimal(|params'|);
      AddFilter([Sql(BaseSelect)], fs, Owner(options.ownerId.value), sql, sql');
      hasWhere' := true;
    } else {
      assert fs + OwnerFilter(options) == fs;
    }
  }

  /** When both price bounds are given, pushes both in cents and appends
      `cost_per_night BETWEEN $n AND $n+1`; one bound alone is ignored. */
  method AppendPriceRange(options: SearchOptions, sql: string, params: seq<Param>, hasWhere: bool, ghost fs: seq<Filter>)
    returns (sql': string, params': seq<Param>, hasWhere': bool)
    requires Built(sql, params, hasWhere, fs)
    ensures Built(sql', params', hasWhere', fs + PriceFilter(options))
  {
    sql', params', hasWhere' := sql, params, hasWhere;
    if GivenNumber(options.minimumPricePerNight) && GivenNumber(options.maximumPricePerNight) {
      var minimum, maximum := options.minimumPricePerNight.value, options.maximumPricePerNight.value;
      SnocPair(params', Num(Cents(minimum)), Num(Cents(maximum)));
      params' := params' + [Num(Cents(minimum))];
      params' := params' + [Num(Cents(maximum))];
      sql' := sql' + (if hasWhere' then And else Where) + CostBetween
              + "$" + Decimal(|params'| - 1) + BetweenAnd + "$" + Decimal(|params'|);
      AddFilter([Sql(BaseSelect)], fs, PriceRange(minimum, maximum), sql, sql');
      hasWhere' := true;
    } else {
      assert fs + PriceFilter(options) == fs;
    }
  }

  // ---------------------------------------------------------------------------
  // Rendering steps the builder takes

  /** The query starts as the base text alone. */
  lemma {:induction false} RenderBase(base: string)
    ensures Render([Sql(base)] + Conditions([]).tokens) == base
  {
    assert [Sql(base)] + Conditions([]).tokens == [] + [Sql(base)];
    RenderSnoc([], Sql(base));
  }

  /** After any tokens `head`, appending filter `f` to the conditions so far appends the connective and
      the condition text the source's template strings produce, and pushes the
      filter's parameters. */
  lemma {:induction false} AddFilter(head: seq<Token>, fs: seq<Filter>, f: Filter, sql: string, sql': string)
    requires sql == Render(head + Conditions(fs).tokens)
    requires var n, conn := |Conditions(fs).params| + 1, Connective(fs == []);
      sql' == match f
              case City(_) => sql + conn + CityLike + "$" + Decimal(n)
              case Owner(_) => sql + conn + OwnerIs + "$" + Decimal(n)
              case PriceRange(_, _) => sql + conn + CostBetween + "$" + Decimal(n) + BetweenAnd + "$" + Decimal(n + 1)
    ensures Conditions(fs + [f]).params == Conditions(fs).params + FilterParams(f)
    ensures sql' == Render(head + Conditions(fs + [f]).tokens)
  {
    var c := Conditions(fs);
    var n, conn := |c.params| + 1, Connective(fs == []);
    assert (fs + [f])[..|fs|] == fs;
    var before := head + c.tokens;
    var ft := FilterTokens(f, n);
    assert Conditions(fs + [f]).tokens == c.tokens + [Sql(conn)] + ft;
    var s1 := before + [Sql(conn)];
    Assoc(head, c.tokens + [Sql(conn)], ft);
    Assoc(head, c.tokens, [Sql(conn)]);
    assert head + Conditions(fs + [f]).tokens == s1 + ft;
    RenderSnoc(before, Sql(conn));
    match f
    case City(_) => RenderSlot(s1, CityLike, n);
    case Owner(_) => RenderSlot(s1, OwnerIs, n);
    case PriceRange(_, _) => RenderSlots(s1, CostBetween, n, BetweenAnd, n + 1);
  }

  /** GROUP BY after any tokens `prefix`. */
  lemma {:induction false} AddGroupBy(prefix: seq<Token>, sql: string, sql': string)
    requires sql == Render(prefix)
    requires sql' == sql + GroupBy
    ensures sql' == Render(prefix + [Sql(GroupBy)])
  {
    RenderSnoc(prefix, Sql(GroupBy));
  }

  /** GROUP BY followed by the HAVING clause on placeholder `$k`. */
  lemma {:induction false} AddHaving(prefix: seq<Token>, k: nat, sql: string, sql': string)
    requires sql == Render(prefix)
    requires sql' == sql + GroupBy + HavingRating + "$" + Decimal(k)
    ensures sql' == Render(prefix + [Sql(GroupBy)] + [Sql(HavingRating), Placeholder(k)])
  {
    RenderSnoc(prefix, Sql(GroupBy));
    RenderSlot(prefix + [Sql(GroupBy)], HavingRating, k);
  }

  /** ORDER BY and LIMIT close the query, the limit on the last placeholder. */
  lemma {:induction false} AddLimit(head: Query, limit: int, sql: string, sql': string)
    requires sql == Render(head.tokens)
    requires sql' == sql + OrderByLimit + "$" + Decimal(|head.params| + 1) + Terminator
    ensures sql' == Render(Ordered(head, limit).tokens)
  {
    RenderClose(head.tokens, OrderByLimit, |head.params| + 1, Terminator);
  }
}
