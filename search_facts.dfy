/** What the filtered search promises about the query it builds: placeholders
    and parameters agree, every placeholder stands for the value pushed for it,
    parameters come in a fixed order, and the clauses come in SQL's order with
    at most one WHERE. */
module SearchFacts {
  import opened Wrappers
  import opened Truthiness
  import opened Sql
  import opened PropertySearch

  // ---------------------------------------------------------------------------
  // Placeholders are $1 .. $n, in order, for n parameters

  lemma {:induction false} FilterPlaceholders(f: Filter, next: nat)
    ensures Placeholders(FilterTokens(f, next)) == Consecutive(next, |FilterParams(f)|)
  {
    match f
    case City(_) =>
      PlaceholdersPair(Sql(CityLike), Placeholder(next));
      assert Consecutive(next, 1) == [next];
    case Owner(_) =>
      PlaceholdersPair(Sql(OwnerIs), Placeholder(next));
      assert Consecutive(next, 1) == [next];
    case PriceRange(_, _) =>
      PlaceholdersQuad(Sql(CostBetween), Placeholder(next), Sql(BetweenAnd), Placeholder(next + 1));
      assert Consecutive(next, 2) == [next, next + 1];
  }

  /** The conditions of a non-empty list end with its last filter's. */
  lemma {:induction false} ConditionsLast(fs: seq<Filter>)
    requires fs != []
    ensures var c, f := Conditions(fs[..|fs| - 1]), fs[|fs| - 1];
      && Conditions(fs).tokens == c.tokens + [Sql(Connective(|fs| == 1))] + FilterTokens(f, |c.params| + 1)
      && Conditions(fs).params == c.params + FilterParams(f)
  {
  }

  lemma {:induction false} ConditionsPlaceholders(fs: seq<Filter>)
    ensures Placeholders(Conditions(fs).tokens) == Consecutive(1, |Conditions(fs).params|)
    decreases |fs|
  {
    if fs != [] {
      var init, f := fs[..|fs| - 1], fs[|fs| - 1];
      ConditionsLast(fs);
      ConditionsPlaceholders(init);
      PlaceholdersStep(Conditions(init), Connective(|fs| == 1), f);
    }
  }

  /** One more condition numbers its placeholders right after the earlier ones. */
  lemma {:induction false} PlaceholdersStep(c: Query, connective: string, f: Filter)
    requires Placeholders(c.tokens) == Consecutive(1, |c.params|)
    ensures Placeholders(c.tokens + [Sql(connective)] + FilterTokens(f, |c.params| + 1))
            == Consecutive(1, |c.params| + |FilterParams(f)|)
  {
    FilterPlaceholders(f, |c.params| + 1);
    PlaceholdersExtend(c.tokens, |c.params|, Sql(connective), FilterTokens(f, |c.params| + 1), |FilterParams(f)|);
  }

  /** Each filter's condition binds exactly the parameters it pushed, as long as
      they sit at its position of the parameter array. */
  lemma {:induction false} FilterBind(f: Filter, next: nat, params: seq<Param>)
    requires 1 <= next && next - 1 + |FilterParams(f)| <= |params|
    requires params[next - 1..next - 1 + |FilterParams(f)|] == FilterParams(f)
    ensures Bind(FilterTokens(f, next), params) == FilterPieces(f)
  {
    match f
    case City(_) =>
      assert params[next - 1] == FilterParams(f)[0];
      BindPair(Sql(CityLike), Placeholder(next), params);
    case Owner(_) =>
      assert params[next - 1] == FilterParams(f)[0];
      BindPair(Sql(OwnerIs), Placeholder(next), params);
    case PriceRange(_, _) => PriceBind(f, next, params);
  }

  lemma {:induction false} PriceBind(f: Filter, next: nat, params: seq<Param>)
    requires f.PriceRange?
    requires 1 <= next && next + 1 <= |params| && params[next - 1..next + 1] == FilterParams(f)
    ensures Bind(FilterTokens(f, next), params) == FilterPieces(f)
  {
    assert params[next - 1] == Num(Cents(f.minimum)) && params[next] == Num(Cents(f.maximum));
    BindQuad(Sql(CostBetween), Placeholder(next), Sql(BetweenAnd), Placeholder(next + 1), params);
  }

  /** Binding the conditions against any parameter array that starts with their
      own parameters writes each filter's values in place. */
  lemma {:induction false} ConditionsBind(fs: seq<Filter>, params: seq<Param>)
    requires Conditions(fs).params <= params
    ensures Bind(Conditions(fs).tokens, params) == IntendedConditions(fs)
    decreases |fs|
  {
    if fs != [] {
      var init, f := fs[..|fs| - 1], fs[|fs| - 1];
      var c, conn := Conditions(init), Connective(|fs| == 1);
      assert Conditions(fs) == Query(c.tokens + [Sql(conn)] + FilterTokens(f, |c.params| + 1), c.params + FilterParams(f));
      assert IntendedConditions(fs) == IntendedConditions(init) + [Word(conn)] + FilterPieces(f);
      BindStep(c, conn, f, params);
      ConditionsBind(init, params);
    }
  }

  /** One more condition binds to its connective and its filter's values. */
  lemma {:induction false} BindStep(c: Query, connective: string, f: Filter, params: seq<Param>)
    requires c.params + FilterParams(f) <= params
    ensures c.params <= params
    ensures Bind(c.tokens + [Sql(connective)] + FilterTokens(f, |c.params| + 1), params)
            == Bind(c.tokens, params) + [Word(connective)] + FilterPieces(f)
  {
    PrefixSplit(c.params, FilterParams(f), params);
    FilterBind(f, |c.params| + 1, params);
    BindExtend(c.tokens, Sql(connective), FilterTokens(f, |c.params| + 1), params);
  }

  /** The placeholders of the search query are `$1`, `$2`, ... in order, one per
      parameter: every `$k` names a pushed parameter, the largest is the
      parameter count, and the last parameter is the limit. */
  lemma {:induction false} SearchPlaceholders(o: SearchOptions, limit: int)
    ensures var q := SearchQuery(o, limit);
      && Placeholders(q.tokens) == Consecutive(1, |q.params|)
      && q.params[|q.params| - 1] == Num(limit)
      && (forall k :: 0 <= k < |q.tokens| ==> !Bind(q.tokens, q.params)[k].Unbound?)
  {
    var c := Conditions(WhereFilters(o));
    ConditionsPlaceholders(WhereFilters(o));
    PlaceholdersAfterText(BaseSelect, c.tokens);
    OrderedPlaceholders(Select(c), o.minimumRating, limit);
    ConsecutiveBindsAll(SearchQuery(o, limit));
  }

  /** GROUP BY, HAVING and ORDER BY keep the placeholders numbered in order. */
  lemma {:induction false} OrderedPlaceholders(w: Query, minimumRating: Option<int>, limit: int)
    requires Placeholders(w.tokens) == Consecutive(1, |w.params|)
    ensures var q := Ordered(Grouped(w, minimumRating), limit);
      Placeholders(q.tokens) == Consecutive(1, |q.params|)
  {
    var g := Grouped(w, minimumRating);
    HavingPlaceholders(w, minimumRating);
    PlaceholdersClose(g.tokens, |g.params|, OrderByLimit, Terminator);
  }

  /** GROUP BY, and HAVING on the next placeholder, keep the numbering in order. */
  lemma {:induction false} HavingPlaceholders(w: Query, minimumRating: Option<int>)
    requires Placeholders(w.tokens) == Consecutive(1, |w.params|)
    ensures Placeholders(Grouped(w, minimumRating).tokens) == Consecutive(1, |Grouped(w, minimumRating).params|)
  {
    var n := |w.params|;
    if GivenNumber(minimumRating) {
      var having := [Sql(HavingRating), Placeholder(n + 1)];
      assert Grouped(w, minimumRating).tokens == w.tokens + [Sql(GroupBy)] + having;
      assert |Grouped(w, minimumRating).params| == n + 1;
      PlaceholdersPair(Sql(HavingRating), Placeholder(n + 1));
      assert Consecutive(n + 1, 1) == [n + 1];
      PlaceholdersExtend(w.tokens, n, Sql(GroupBy), having, 1);
    } else {
      PlaceholdersSnocText(w.tokens, Sql(GroupBy));
    }
  }

  /** Binding the search query's parameters to its placeholders gives the query
      with every filter value, the rating and the limit written in its place. */
  lemma {:induction false} SearchBinds(o: SearchOptions, limit: int)
    ensures var q := SearchQuery(o, limit);
      Bind(q.tokens, q.params) == IntendedQuery(o, limit)
  {
    var c := Conditions(WhereFilters(o));
    var q := SearchQuery(o, limit);
    OrderedBinds(Select(c), o.minimumRating, limit);
    OrderedKeepsParams(Select(c), o.minimumRating, limit);
    SelectBind(WhereFilters(o), q.params);
  }

  /** GROUP BY, HAVING and ORDER BY only push parameters after the head's. */
  lemma {:induction false} OrderedKeepsParams(head: Query, minimumRating: Option<int>, limit: int)
    ensures head.params <= Ordered(Grouped(head, minimumRating), limit).params
  {
  }

  /** The base SELECT binds to itself, followed by the bound conditions. */
  lemma {:induction false} SelectBind(fs: seq<Filter>, params: seq<Param>)
    requires Conditions(fs).params <= params
    ensures Bind(Select(Conditions(fs)).tokens, params) == [Word(BaseSelect)] + IntendedConditions(fs)
  {
    BindCons(Sql(BaseSelect), Conditions(fs).tokens, params);
    ConditionsBind(fs, params);
  }

  /** Binding GROUP BY, HAVING and ORDER BY writes the rating and the limit in
      place of their placeholders. */
  lemma {:induction false} OrderedBinds(w: Query, minimumRating: Option<int>, limit: int)
    ensures var q := Ordered(Grouped(w, minimumRating), limit);
      Bind(q.tokens, q.params)
      == Bind(w.tokens, q.params) + [Word(GroupBy)]
         + (if GivenNumber(minimumRating) then [Word(HavingRating), Value(Num(minimumRating.value))] else [])
         + [Word(OrderByLimit), Value(Num(limit)), Word(Terminator)]
  {
    var g := Grouped(w, minimumRating);
    var q := Ordered(g, limit);
    var n := |w.params|;
    if GivenNumber(minimumRating) {
      assert q.params[n] == Num(minimumRating.value);
      BindPair(Sql(HavingRating), Placeholder(n + 1), q.params);
      BindExtend(w.tokens, Sql(GroupBy), [Sql(HavingRating), Placeholder(n + 1)], q.params);
    } else {
      BindExtend(w.tokens, Sql(GroupBy), [], q.params);
      assert w.tokens + [Sql(GroupBy)] + [] == w.tokens + [Sql(GroupBy)];
    }
    BindClose(g.tokens, OrderByLimit, |g.params| + 1, Terminator, q.params);
  }

  // ---------------------------------------------------------------------------
  // Parameters in a fixed order, each only when its filter is present

  function CityParams(o: SearchOptions): seq<Param> {
    if GivenText(o.city) then [Text(LikePattern(o.city.value))] else []
  }

  function OwnerParams(o: SearchOptions): seq<Param> {
    if GivenNumber(o.ownerId) then [Num(o.ownerId.value)] else []
  }

  function PriceParams(o: SearchOptions): seq<Param> {
    if GivenPriceRange(o)
    then [Num(Cents(o.minimumPricePerNight.value)), Num(Cents(o.maximumPricePerNight.value))]
    else []
  }

  function RatingParams(o: SearchOptions): seq<Param> {
    if GivenNumber(o.minimumRating) then [Num(o.minimumRating.value)] else []
  }

  /** Appending a filter appends its connective, its condition numbered after
      the parameters so far, and its parameters. */
  lemma {:induction false} ConditionsSnoc(fs: seq<Filter>, f: Filter)
    ensures var c := Conditions(fs);
      && Conditions(fs + [f]).tokens == c.tokens + [Sql(Connective(fs == []))] + FilterTokens(f, |c.params| + 1)
      && Conditions(fs + [f]).params == c.params + FilterParams(f)
  {
    assert (fs + [f])[..|fs|] == fs;
  }

  /** The parameters of two filter lists one after the other are the
      parameters of each, one after the other. */
  lemma {:induction false} ConditionsParamsAppend(a: seq<Filter>, b: seq<Filter>)
    ensures Conditions(a + b).params == Conditions(a).params + Conditions(b).params
    decreases |b|
  {
    if b == [] {
      assert a + b == a;
    } else {
      var init, f := b[..|b| - 1], b[|b| - 1];
      assert b == init + [f];
      Assoc(a, init, [f]);
      ConditionsSnoc(a + init, f);
      ConditionsSnoc(init, f);
      ConditionsParamsAppend(a, init);
      Assoc(Conditions(a).params, Conditions(init).params, FilterParams(f));
    }
  }

  /** A single filter is introduced by WHERE and numbered from `$1`. */
  lemma {:induction false} ConditionsSingle(f: Filter)
    ensures Conditions([f]) == Query([Sql(Where)] + FilterTokens(f, 1), FilterParams(f))
  {
    ConditionsSnoc([], f);
    assert [] + [f] == [f];
  }

  /** Each of the three WHERE-level filters contributes its own parameters. */
  lemma {:induction false} FilterListParams(o: SearchOptions)
    ensures Conditions(CityFilter(o)).params == CityParams(o)
    ensures Conditions(OwnerFilter(o)).params == OwnerParams(o)
    ensures Conditions(PriceFilter(o)).params == PriceParams(o)
  {
    if GivenText(o.city) { ConditionsSingle(City(o.city.value)); }
    if GivenNumber(o.ownerId) { ConditionsSingle(Owner(o.ownerId.value)); }
    if GivenPriceRange(o) {
      ConditionsSingle(PriceRange(o.minimumPricePerNight.value, o.maximumPricePerNight.value));
    }
  }

  /** The parameters are the city pattern, the owner id, the two prices in cents,
      the minimum rating and the limit, in that order, each filter's only when
      that filter is present. */
  lemma {:induction false} SearchParamsOrder(o: SearchOptions, limit: int)
    ensures SearchQuery(o, limit).params
         == CityParams(o) + OwnerParams(o) + PriceParams(o) + RatingParams(o) + [Num(limit)]
  {
    var c, ow, pr := CityFilter(o), OwnerFilter(o), PriceFilter(o);
    ConditionsParamsAppend(c + ow, pr);
    ConditionsParamsAppend(c, ow);
    FilterListParams(o);
  }

  // ---------------------------------------------------------------------------
  // The WHERE clause: one WHERE, then AND; each filter's condition at most once

  /** The text a filter's condition opens with. */
  function Opening(f: Filter): string {
    match f
    case City(_) => CityLike
    case Owner(_) => OwnerIs
    case PriceRange(_, _) => CostBetween
  }

  /** The connectives, the openings and the text between the two prices all
      differ from one another. */
  lemma {:induction false} KeywordsDiffer()
    ensures Where != And && Where != CityLike && Where != OwnerIs && Where != CostBetween && Where != BetweenAnd
    ensures And != CityLike && And != OwnerIs && And != CostBetween && And != BetweenAnd
    ensures CityLike != OwnerIs && CityLike != CostBetween && CityLike != BetweenAnd
    ensures OwnerIs != CostBetween && OwnerIs != BetweenAnd && CostBetween != BetweenAnd
  {
    assert Where[1] != And[1];
    assert CityLike[1] != Where[1] && CityLike[1] != And[1];
    assert OwnerIs[1] != Where[1] && OwnerIs[1] != And[1] && OwnerIs[1] != CityLike[1];
    assert CostBetween[1] != Where[1] && CostBetween[1] != And[1] && CostBetween[2] != CityLike[2] && CostBetween[1] != OwnerIs[1];
    assert |BetweenAnd| == 5 && |And| == 4;
    assert BetweenAnd[1] != Where[1] && BetweenAnd[1] != CityLike[1] && BetweenAnd[1] != OwnerIs[1] && BetweenAnd[1] != CostBetween[1];
  }

  /** Apart from the text between two prices, a filter's condition holds one
      literal: its opening. */
  lemma {:induction false} FilterCount(f: Filter, next: nat, t: Token)
    requires t.Sql? && t.text != BetweenAnd
    ensures Count(FilterTokens(f, next), t) == if t == Sql(Opening(f)) then 1 else 0
  {
    match f
    case City(_) => CountPair(Sql(CityLike), Placeholder(next), t);
    case Owner(_) => CountPair(Sql(OwnerIs), Placeholder(next), t);
    case PriceRange(_, _) =>
      CountQuad(Sql(CostBetween), Placeholder(next), Sql(BetweenAnd), Placeholder(next + 1), t);
  }

  /** Appending a filter adds one connective and the filter's opening. */
  lemma {:induction false} ConditionsCountSnoc(fs: seq<Filter>, f: Filter, t: Token)
    requires t.Sql? && t.text != BetweenAnd
    ensures Count(Conditions(fs + [f]).tokens, t)
         == Count(Conditions(fs).tokens, t)
          + (if t == Sql(Connective(fs == [])) then 1 else 0)
          + (if t == Sql(Opening(f)) then 1 else 0)
  {
    var c := Conditions(fs);
    var conn := Sql(Connective(fs == []));
    var ft := FilterTokens(f, |c.params| + 1);
    ConditionsSnoc(fs, f);
    CountAppend(c.tokens + [conn], ft, t);
    CountSnoc(c.tokens, conn, t);
    FilterCount(f, |c.params| + 1, t);
  }

  /** A literal other than a connective occurs in the conditions of two filter
      lists one after the other as often as in each of them. */
  lemma {:induction false} ConditionsCountAppend(a: seq<Filter>, b: seq<Filter>, t: Token)
    requires t.Sql? && t.text != BetweenAnd && t.text != Where && t.text != And
    ensures Count(Conditions(a + b).tokens, t) == Count(Conditions(a).tokens, t) + Count(Conditions(b).tokens, t)
    decreases |b|
  {
    if b == [] {
      assert a + b == a;
    } else {
      var init, f := b[..|b| - 1], b[|b| - 1];
      assert b == init + [f];
      Assoc(a, init, [f]);
      ConditionsCountSnoc(a + init, f, t);
      ConditionsCountSnoc(init, f, t);
      ConditionsCountAppend(a, init, t);
    }
  }

  /** The conditions of a list of at most one filter hold its opening once. */
  lemma {:induction false} SingleCount(fs: seq<Filter>, t: Token)
    requires |fs| <= 1
    requires t.Sql? && t.text != BetweenAnd && t.text != Where && t.text != And
    ensures Count(Conditions(fs).tokens, t) == if fs != [] && t == Sql(Opening(fs[0])) then 1 else 0
  {
    if fs != [] {
      assert [] + [fs[0]] == fs;
      ConditionsCountSnoc([], fs[0], t);
    }
  }

  lemma {:induction false} ConditionsCountThree(a: seq<Filter>, b: seq<Filter>, c: seq<Filter>, t: Token)
    requires t.Sql? && t.text != BetweenAnd && t.text != Where && t.text != And
    ensures Count(Conditions(a + b + c).tokens, t)
         == Count(Conditions(a).tokens, t) + Count(Conditions(b).tokens, t) + Count(Conditions(c).tokens, t)
  {
    ConditionsCountAppend(a + b, c, t);
    ConditionsCountAppend(a, b, t);
  }

  /** Each opening occurs once for each WHERE-level filter that is present. */
  lemma {:induction false} WhereCount(o: SearchOptions, t: Token)
    requires t.Sql? && t.text != BetweenAnd && t.text != Where && t.text != And
    ensures Count(Conditions(WhereFilters(o)).tokens, t)
         == (if GivenText(o.city) && t == Sql(CityLike) then 1 else 0)
          + (if GivenNumber(o.ownerId) && t == Sql(OwnerIs) then 1 else 0)
          + (if GivenPriceRange(o) && t == Sql(CostBetween) then 1 else 0)
  {
    ConditionsCountThree(CityFilter(o), OwnerFilter(o), PriceFilter(o), t);
    CityCount(o, t);
    OwnerCount(o, t);
    PriceCount(o, t);
  }

  lemma {:induction false} CityCount(o: SearchOptions, t: Token)
    requires t.Sql? && t.text != BetweenAnd && t.text != Where && t.text != And
    ensures Count(Conditions(CityFilter(o)).tokens, t) == if GivenText(o.city) && t == Sql(CityLike) then 1 else 0
  {
    SingleCount(CityFilter(o), t);
  }

  lemma {:induction false} OwnerCount(o: SearchOptions, t: Token)
    requires t.Sql? && t.text != BetweenAnd && t.text != Where && t.text != And
    ensures Count(Conditions(OwnerFilter(o)).tokens, t) == if GivenNumber(o.ownerId) && t == Sql(OwnerIs) then 1 else 0
  {
    SingleCount(OwnerFilter(o), t);
  }

  lemma {:induction false} PriceCount(o: SearchOptions, t: Token)
    requires t.Sql? && t.text != BetweenAnd && t.text != Where && t.text != And
    ensures Count(Conditions(PriceFilter(o)).tokens, t) == if GivenPriceRange(o) && t == Sql(CostBetween) then 1 else 0
  {
    SingleCount(PriceFilter(o), t);
  }

  /** Conditions open with WHERE and join every further filter with AND. */
  lemma {:induction false} ConditionsConnectives(fs: seq<Filter>)
    ensures var ts := Conditions(fs).tokens;
      && Count(ts, Sql(Where)) == (if fs == [] then 0 else 1)
      && Count(ts, Sql(And)) == (if fs == [] then 0 else |fs| - 1)
      && (fs != [] ==> ts[0] == Sql(Where))
    decreases |fs|
  {
    if fs != [] {
      var init, f := fs[..|fs| - 1], fs[|fs| - 1];
      assert fs == init + [f];
      KeywordsDiffer();
      ConditionsConnectives(init);
      ConditionsCountSnoc(init, f, Sql(Where));
      ConditionsCountSnoc(init, f, Sql(And));
    }
  }

  /** The WHERE-level conditions hold one WHERE exactly when some WHERE-level
      filter is present, and it comes first; every further filter is joined by
      AND; the city, owner and price conditions each appear once when their
      filter is present and never otherwise. */
  lemma {:induction false} WhereClause(o: SearchOptions)
    ensures var ts := Conditions(WhereFilters(o)).tokens;
      && Count(ts, Sql(Where)) == (if HasWhereFilter(o) then 1 else 0)
      && (HasWhereFilter(o) ==> ts[0] == Sql(Where))
      && Count(ts, Sql(And)) == (if HasWhereFilter(o) then |WhereFilters(o)| - 1 else 0)
      && Count(ts, Sql(CityLike)) == (if GivenText(o.city) then 1 else 0)
      && Count(ts, Sql(OwnerIs)) == (if GivenNumber(o.ownerId) then 1 else 0)
      && Count(ts, Sql(CostBetween)) == (if GivenPriceRange(o) then 1 else 0)
  {
    ConditionsConnectives(WhereFilters(o));
    KeywordsDiffer();
    WhereCount(o, Sql(CityLike));
    WhereCount(o, Sql(OwnerIs));
    WhereCount(o, Sql(CostBetween));
  }

  // ---------------------------------------------------------------------------
  // Clause order: conditions, GROUP BY, HAVING, ORDER BY and LIMIT

  /** Every literal of the WHERE-level conditions is condition text. */
  lemma {:induction false} ConditionsText(fs: seq<Filter>)
    ensures forall t :: t in Conditions(fs).tokens && t.Sql? ==> ConditionText(t.text)
    decreases |fs|
  {
    if fs != [] {
      var init, f := fs[..|fs| - 1], fs[|fs| - 1];
      var c := Conditions(init);
      ConditionsText(init);
      TextStep(c.tokens, Connective(|fs| == 1), f, |c.params| + 1);
    }
  }

  /** A connective and a filter's condition add only condition text. */
  lemma {:induction false} TextStep(ts: seq<Token>, connective: string, f: Filter, next: nat)
    requires connective == Where || connective == And
    requires forall t :: t in ts && t.Sql? ==> ConditionText(t.text)
    ensures forall t :: t in ts + [Sql(connective)] + FilterTokens(f, next) && t.Sql? ==> ConditionText(t.text)
  {
  }

  /** Text outside the WHERE clause is never condition text. */
  lemma {:induction false} ClauseTextsDiffer()
    ensures !ConditionText(BaseSelect) && !ConditionText(GroupBy) && !ConditionText(HavingRating)
    ensures !ConditionText(OrderByLimit) && !ConditionText(Terminator)
    ensures GroupBy != BaseSelect && GroupBy != HavingRating && GroupBy != OrderByLimit && GroupBy != Terminator
    ensures HavingRating != BaseSelect && HavingRating != OrderByLimit && HavingRating != Terminator
  {
  }

  /** Everything after the head, as literal tokens: GROUP BY, the HAVING
      clause for a rating, ORDER BY, the LIMIT placeholder and the terminator. */
  function Rest(minimumRating: Option<int>, conditionParams: nat, paramCount: nat): seq<Token> {
    if GivenNumber(minimumRating)
    then [Sql(GroupBy), Sql(HavingRating), Placeholder(conditionParams + 1),
          Sql(OrderByLimit), Placeholder(paramCount), Sql(Terminator)]
    else [Sql(GroupBy), Sql(OrderByLimit), Placeholder(paramCount), Sql(Terminator)]
  }

  lemma {:induction false} OrderedSplit(w: Query, minimumRating: Option<int>, limit: int)
    ensures var q := Ordered(Grouped(w, minimumRating), limit);
      q.tokens == w.tokens + Rest(minimumRating, |w.params|, |q.params|)
  {
    var q := Ordered(Grouped(w, minimumRating), limit);
    var m := |q.params|;
    var tail := [Sql(OrderByLimit), Placeholder(m), Sql(Terminator)];
    if GivenNumber(minimumRating) {
      var h := [Sql(HavingRating), Placeholder(|w.params| + 1)];
      Assoc(w.tokens + [Sql(GroupBy)], h, tail);
      Assoc(w.tokens, [Sql(GroupBy)], h + tail);
      assert [Sql(GroupBy)] + (h + tail) == Rest(minimumRating, |w.params|, m);
    } else {
      Assoc(w.tokens, [Sql(GroupBy)], tail);
      assert [Sql(GroupBy)] + tail == Rest(minimumRating, |w.params|, m);
    }
  }

  /** Nothing after the head is condition text. */
  lemma {:induction false} RestText(minimumRating: Option<int>, conditionParams: nat, paramCount: nat)
    ensures forall t :: t in Rest(minimumRating, conditionParams, paramCount) && t.Sql? ==> !ConditionText(t.text)
  {
    ClauseTextsDiffer();
  }

  /** After the head, GROUP BY comes first and HAVING, if any, second. */
  lemma {:induction false} RestOrder(minimumRating: Option<int>, conditionParams: nat, paramCount: nat)
    ensures var rest := Rest(minimumRating, conditionParams, paramCount);
      && (forall j :: 0 <= j < |rest| && rest[j] == Sql(GroupBy) ==> j == 0)
      && (forall j :: 0 <= j < |rest| && rest[j] == Sql(HavingRating) ==> j == 1 && GivenNumber(minimumRating))
      && rest[0] == Sql(GroupBy)
      && (GivenNumber(minimumRating) ==> rest[1] == Sql(HavingRating))
  {
    ClauseTextsDiffer();
  }

  /** GROUP BY comes right after `head`, and condition text only inside it. */
  lemma {:induction false} HeadBeforeGroupBy(head: Query, minimumRating: Option<int>, limit: int)
    ensures var ts, k := Ordered(Grouped(head, minimumRating), limit).tokens, |head.tokens|;
      && k < |ts| && ts[k] == Sql(GroupBy)
      && forall i :: 0 <= i < |ts| && ts[i].Sql? && ConditionText(ts[i].text) ==> i < k
  {
    var q := Ordered(Grouped(head, minimumRating), limit);
    OrderedSplit(head, minimumRating, limit);
    RestText(minimumRating, |head.params|, |q.params|);
    forall i | 0 <= i < |q.tokens| && q.tokens[i].Sql? && ConditionText(q.tokens[i].text)
      ensures i < |head.tokens|
    {
    }
  }

  /** When `head` holds neither, GROUP BY occurs right after it and nowhere
      else, and HAVING only right after GROUP BY and only for a minimum
      rating, which always produces it. */
  lemma {:induction false} GroupByThenHaving(head: Query, minimumRating: Option<int>, limit: int)
    requires forall t :: t in head.tokens ==> t != Sql(GroupBy) && t != Sql(HavingRating)
    ensures var ts, k := Ordered(Grouped(head, minimumRating), limit).tokens, |head.tokens|;
      && k + 1 < |ts|
      && ts[k] == Sql(GroupBy)
      && (forall i :: 0 <= i < |ts| && ts[i] == Sql(GroupBy) ==> i == k)
      && (forall i :: 0 <= i < |ts| && ts[i] == Sql(HavingRating) ==> i == k + 1 && GivenNumber(minimumRating))
      && (GivenNumber(minimumRating) ==> ts[k + 1] == Sql(HavingRating))
  {
    var q := Ordered(Grouped(head, minimumRating), limit);
    var rest := Rest(minimumRating, |head.params|, |q.params|);
    OrderedSplit(head, minimumRating, limit);
    forall i | 0 <= i < |head.tokens|
      ensures q.tokens[i] == head.tokens[i] && q.tokens[i] in head.tokens
    {
    }
    RestOrder(minimumRating, |head.params|, |q.params|);
    forall i | |head.tokens| <= i < |q.tokens|
      ensures q.tokens[i] == rest[i - |head.tokens|]
    {
    }
  }

  /** A head free of GROUP BY and HAVING keeps the clauses in SQL's order. */
  lemma {:induction false} OrderedClauses(head: Query, minimumRating: Option<int>, limit: int)
    requires forall t :: t in head.tokens ==> t != Sql(GroupBy) && t != Sql(HavingRating)
    ensures var ts := Ordered(Grouped(head, minimumRating), limit).tokens;
      && |head.tokens| < |ts| && ts[|head.tokens|] == Sql(GroupBy)
      && (forall i, j :: 0 <= i < |ts| && 0 <= j < |ts| && ts[i].Sql? && ConditionText(ts[i].text) && ts[j] == Sql(GroupBy)
            ==> i < j)
      && (forall i, j :: 0 <= i < |ts| && 0 <= j < |ts| && ts[i] == Sql(GroupBy) && ts[j] == Sql(HavingRating) ==> i < j)
      && (forall i, j :: 0 <= i < |ts| && 0 <= j < |ts| && ts[i] == Sql(GroupBy) && ts[j] == Sql(GroupBy) ==> i == j)
      && (Sql(HavingRating) in ts <==> GivenNumber(minimumRating))
  {
    HeadBeforeGroupBy(head, minimumRating, limit);
    GroupByThenHaving(head, minimumRating, limit);
  }

  /** Nothing after the head is a WHERE-level keyword, so it counts none. */
  lemma {:induction false} RestCount(minimumRating: Option<int>, conditionParams: nat, paramCount: nat, t: Token)
    requires t.Sql? && ConditionText(t.text)
    ensures Count(Rest(minimumRating, conditionParams, paramCount), t) == 0
  {
    ClauseTextsDiffer();
    var rest := Rest(minimumRating, conditionParams, paramCount);
    if GivenNumber(minimumRating) {
      assert rest == [rest[0], rest[1]] + [rest[2], rest[3], rest[4], rest[5]];
      CountAppend([rest[0], rest[1]], [rest[2], rest[3], rest[4], rest[5]], t);
      CountPair(rest[0], rest[1], t);
      CountQuad(rest[2], rest[3], rest[4], rest[5], t);
    } else {
      CountQuad(rest[0], rest[1], rest[2], rest[3], t);
    }
  }

  /** The query handed to the pool holds one WHERE when a WHERE-level filter is
      given and none otherwise: the base SELECT, GROUP BY, HAVING and ORDER BY
      add none to the conditions' own. */
  lemma {:induction false} WhereInQuery(o: SearchOptions, limit: int)
    ensures Count(SearchQuery(o, limit).tokens, Sql(Where)) == (if HasWhereFilter(o) then 1 else 0)
    ensures Sql(Where) in SearchQuery(o, limit).tokens <==> HasWhereFilter(o)
  {
    var c := Conditions(WhereFilters(o));
    var q := SearchQuery(o, limit);
    var rest := Rest(o.minimumRating, |c.params|, |q.params|);
    OrderedSplit(Select(c), o.minimumRating, limit);
    CountAppend(Select(c).tokens, rest, Sql(Where));
    CountAppend([Sql(BaseSelect)], c.tokens, Sql(Where));
    CountSnoc([], Sql(BaseSelect), Sql(Where));
    assert [] + [Sql(BaseSelect)] == [Sql(BaseSelect)];
    ClauseTextsDiffer();
    RestCount(o.minimumRating, |c.params|, |q.params|, Sql(Where));
    ConditionsConnectives(WhereFilters(o));
    CountPositive(q.tokens, Sql(Where));
  }

  /** The base SELECT and the conditions hold neither GROUP BY nor HAVING. */
  lemma {:induction false} SelectClean(c: Query)
    requires forall t :: t in c.tokens && t.Sql? ==> ConditionText(t.text)
    ensures forall t :: t in Select(c).tokens ==> t != Sql(GroupBy) && t != Sql(HavingRating)
  {
    ClauseTextsDiffer();
  }

  /** The query ends with ORDER BY, the LIMIT placeholder naming the last
      parameter, and the terminator. */
  lemma {:induction false} OrderedEnd(head: Query, limit: int)
    ensures var q := Ordered(head, limit);
      q.tokens[|q.tokens| - 3..] == [Sql(OrderByLimit), Placeholder(|q.params|), Sql(Terminator)]
  {
    var q := Ordered(head, limit);
    assert q.tokens[|q.tokens| - 3..] == q.tokens[|head.tokens|..];
  }

  /** The clauses come in SQL's order: every WHERE-level condition before GROUP
      BY, GROUP BY exactly once and before HAVING, HAVING at most once and only
      for a minimum rating, and the query ends with ORDER BY, the LIMIT
      placeholder naming the last parameter, and the terminator. */
  lemma {:induction false} ClauseOrder(o: SearchOptions, limit: int)
    ensures var q := SearchQuery(o, limit);
      var ts := q.tokens;
      && |Select(Conditions(WhereFilters(o))).tokens| < |ts|
      && ts[|Select(Conditions(WhereFilters(o))).tokens|] == Sql(GroupBy)
      && (forall i, j :: 0 <= i < |ts| && 0 <= j < |ts| && ts[i].Sql? && ConditionText(ts[i].text) && ts[j] == Sql(GroupBy)
            ==> i < j)
      && (forall i, j :: 0 <= i < |ts| && 0 <= j < |ts| && ts[i] == Sql(GroupBy) && ts[j] == Sql(HavingRating) ==> i < j)
      && (forall i, j :: 0 <= i < |ts| && 0 <= j < |ts| && ts[i] == Sql(GroupBy) && ts[j] == Sql(GroupBy) ==> i == j)
      && (Sql(HavingRating) in ts <==> GivenNumber(o.minimumRating))
      && ts[|ts| - 3..] == [Sql(OrderByLimit), Placeholder(|q.params|), Sql(Terminator)]
  {
    var head := Select(Conditions(WhereFilters(o)));
    ConditionsText(WhereFilters(o));
    SelectClean(Conditions(WhereFilters(o)));
    OrderedClauses(head, o.minimumRating, limit);
    HeadBeforeGroupBy(head, o.minimumRating, limit);
    OrderedEnd(Grouped(head, o.minimumRating), limit);
  }
}
