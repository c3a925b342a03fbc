# LightBnB data-access layer

LightBnB is a small Airbnb-style web application: an Express server whose
`db/database.js` module turns the requests of its routes into SQL for a
PostgreSQL pool. Most of that module hands a fixed query to the pool. The
logic it runs itself, which this project models and proves properties of, is:

- **The filtered property search** (`getAllProperties`). It starts from a base
  SELECT of the properties and their average rating. For each search filter
  that is present (city, owner, price range), it pushes a value onto
  `queryParams` and appends a condition. That condition names the value with
  the placeholder `$n`, where `n` is the new length of the array. The first
  condition is introduced by ` WHERE` and every later one by ` AND`. The
  query then takes GROUP BY, then a HAVING clause on the average rating when
  a minimum rating is given, then ORDER BY and LIMIT, with the limit as the
  last parameter. `PropertySearch.GetAllProperties` and its helper methods
  build the string with `+=` and the array with pushes, as the source does.
  `SearchFacts` proves what the result means: the placeholders are `$1 .. $n`
  in order for `n` parameters; binding them gives the query with every value
  in its place; the parameters come in a fixed order; the query holds one
  ` WHERE` literal when a city, owner or price filter is given and none
  otherwise; and
  the clauses come in SQL's order.
- **The in-memory `addProperty`**. It numbers a property with the key count
  plus one, writes that id into the caller's object and stores the object in
  the module's `properties` table. `Store.PropertyStore` is that table as a
  class with a `map<int, Property>` field.
- **The user lookups** (`getUserWithEmail`, `getUserWithId`). A falsy argument
  is rejected before any query goes out. Otherwise one single-parameter
  SELECT is issued, and the promise resolves to the first row, to `null` when
  there is none, or to `undefined` when the query failed and the error was
  swallowed.

Query text is modelled as tokens (`Sql.Token`): literal SQL text, or a
placeholder `$k`. `Sql.Render` prints tokens as the source's template strings
do, with `Sql.Decimal` as the integer's decimal notation. `Sql.Bind`
substitutes the parameters the way the database server does. The search
builder's partner is `PropertySearch.SearchQuery`, a declarative definition
of the same query as a list of filters joined by WHERE/AND. Its meaning is
`PropertySearch.IntendedQuery`, the query with each value written where it
belongs and no placeholder numbers at all.

JavaScript's `if (x)` on an option is `Truthiness.GivenText` (present and
not empty) or `Truthiness.GivenNumber` (present and not zero). `None` stands
for `undefined` or `null`.

Files: `wrappers.dfy` (Option), `truthiness.dfy`, `sql.dfy` (tokens,
rendering, decimal notation, binding), `property_search.dfy` (the builder and
its reference definition), `search_facts.dfy` (the properties of the
search), `property_store.dfy` (`addProperty`), `user_lookup.dfy` (the user
lookups).

## Model

| member | source | states |
|---|---|---|
| PropertySearch.GetAllProperties | LightBnB_WebApp/db/database.js:126-174 | The string and array the builder produces are exactly the rendering and the parameters of `SearchQuery(options, limit)`. An absent limit is 10. |
| PropertySearch.AppendConditions | LightBnB_WebApp/db/database.js:130-156 | After the three WHERE-level filter steps, the string is the base SELECT followed by the conditions of exactly the filters that are present, in the order city, owner, price. The array holds their parameters. |
| PropertySearch.AppendCity | LightBnB_WebApp/db/database.js:137-141 | A non-empty city extends the conditions built so far by the city condition. That means ` WHERE` if it is first and ` AND` otherwise, then ` city LIKE $n` on the pattern just pushed. An absent or empty city changes nothing, and `hasWhere` records whether any condition exists. |
| PropertySearch.AppendOwner | LightBnB_WebApp/db/database.js:143-147 | A non-zero owner id extends the conditions by ` owner_id = $n` on the id just pushed, with the right connective. Otherwise nothing changes. |
| PropertySearch.AppendPriceRange | LightBnB_WebApp/db/database.js:150-156 | Only when both bounds are truthy are the conditions extended by ` cost_per_night BETWEEN $n-1 AND $n`, over the two bounds pushed in cents, minimum first. One bound alone adds no clause and no parameter. |
| PropertySearch.AppendGroupBy | LightBnB_WebApp/db/database.js:158-167 | GROUP BY follows the head. A non-zero minimum rating is pushed and named by ` HAVING avg(property_reviews.rating) >= $n` right after GROUP BY. The result is `Grouped(head, rating)`. |
| PropertySearch.WhereFilters | LightBnB_WebApp/db/database.js:136-156 | The list of WHERE-level filters is empty exactly when no city, owner or full price range is given. |
| PropertySearch.LikePatternWraps | LightBnB_WebApp/db/database.js:138 | The city parameter is the city with one `%` before and one after, so the city can be read back from it. |
| PropertySearch.RenderBase | LightBnB_WebApp/db/database.js:130-133 | Before any filter, the query text is the base SELECT alone. |
| PropertySearch.AddFilter | LightBnB_WebApp/db/database.js:137-156 | Appending the connective and a filter's template text to the rendered conditions renders the conditions extended by that filter. The filter's parameters are appended to the array. |
| PropertySearch.AddGroupBy | LightBnB_WebApp/db/database.js:158-161 | Appending the GROUP BY text renders the head followed by a GROUP BY token. |
| PropertySearch.AddHaving | LightBnB_WebApp/db/database.js:163-167 | Appending GROUP BY and the HAVING text with `$k` renders GROUP BY, HAVING and placeholder `k` after the head. |
| PropertySearch.AddLimit | LightBnB_WebApp/db/database.js:169-174 | Appending ORDER BY, `LIMIT $n` and the terminator renders `Ordered(head, limit)`, whose last placeholder is the new parameter count. |
| SearchFacts.FilterPlaceholders | LightBnB_WebApp/db/database.js:137-156 | A filter's condition names exactly its own parameters, numbered consecutively from the next free number. |
| SearchFacts.ConditionsPlaceholders | LightBnB_WebApp/db/database.js:137-156 | The placeholders of the WHERE-level conditions are `$1 .. $n` in order, for their `n` parameters. |
| SearchFacts.PlaceholdersStep | LightBnB_WebApp/db/database.js:137-156 | Adding a condition after consecutively numbered ones keeps the numbering consecutive, up to the new parameter count. |
| SearchFacts.SearchPlaceholders | LightBnB_WebApp/db/database.js:137-173 | In the whole search query the placeholders are `$1 .. $n` in order for `n` parameters, so the largest index is the parameter count. The limit is the last parameter, and no placeholder is left unbound. |
| SearchFacts.OrderedPlaceholders | LightBnB_WebApp/db/database.js:158-174 | The HAVING and LIMIT placeholders continue the numbering of the head. |
| SearchFacts.FilterBind | LightBnB_WebApp/db/database.js:137-156 | Each filter's placeholders bind to the values it pushed: the LIKE pattern, the owner id, or the two prices in cents. |
| SearchFacts.ConditionsBind | LightBnB_WebApp/db/database.js:137-156 | Binding the conditions against any array that starts with their parameters gives the conditions with the values in place. |
| SearchFacts.BindStep | LightBnB_WebApp/db/database.js:137-156 | Parameters pushed later do not change what an earlier condition binds to. |
| SearchFacts.SelectBind | LightBnB_WebApp/db/database.js:130-156 | The base SELECT binds to itself, followed by the bound conditions. |
| SearchFacts.OrderedBinds | LightBnB_WebApp/db/database.js:158-174 | GROUP BY, HAVING and ORDER BY bind the rating after HAVING and the limit after LIMIT. |
| SearchFacts.HavingPlaceholders | LightBnB_WebApp/db/database.js:158-167 | GROUP BY, and HAVING on the placeholder after the head's, keep the placeholders `$1 .. $n` for the `n` parameters. |
| SearchFacts.OrderedKeepsParams | LightBnB_WebApp/db/database.js:158-172 | GROUP BY, HAVING and LIMIT only push parameters after the head's. |
| SearchFacts.SearchBinds | LightBnB_WebApp/db/database.js:126-174 | Binding the parameters into the query gives `IntendedQuery`: every value stands where the source meant it, with the cents conversion applied. |
| SearchFacts.ConditionsSnoc | LightBnB_WebApp/db/database.js:137-156 | Appending a filter appends its connective, its condition numbered after the parameters so far, and its parameters. |
| SearchFacts.ConditionsParamsAppend | LightBnB_WebApp/db/database.js:137-156 | The parameters of two filter lists in sequence are the parameters of each, one after the other. |
| SearchFacts.ConditionsSingle | LightBnB_WebApp/db/database.js:137-156 | A single filter is introduced by WHERE and numbered from `$1`. |
| SearchFacts.FilterListParams | LightBnB_WebApp/db/database.js:137-156 | Each filter that is present contributes exactly its own parameters, and an absent filter contributes none. |
| SearchFacts.SearchParamsOrder | LightBnB_WebApp/db/database.js:137-170 | The parameters are, in order: the city pattern, the owner id, the minimum and maximum prices in cents, the minimum rating and the limit. Each appears only when its filter is present. |
| SearchFacts.FilterCount | LightBnB_WebApp/db/database.js:137-156 | A filter's condition holds its own opening text once and no other literal, apart from the ` AND ` between the two prices. |
| SearchFacts.ConditionsCountSnoc | LightBnB_WebApp/db/database.js:137-156 | Appending a filter adds one connective and one opening. |
| SearchFacts.ConditionsCountAppend | LightBnB_WebApp/db/database.js:137-156 | Openings in two filter lists in sequence add up. |
| SearchFacts.WhereCount | LightBnB_WebApp/db/database.js:136-156 | Each filter's opening occurs once when the filter is present, and never otherwise. |
| SearchFacts.ConditionsConnectives | LightBnB_WebApp/db/database.js:136-156 | Non-empty conditions hold one WHERE, at their start, and one AND per further filter. Empty conditions hold neither. |
| SearchFacts.WhereClause | LightBnB_WebApp/db/database.js:136-156 | WHERE occurs once, first, when some WHERE-level filter is given, and not at all otherwise. Every later filter is joined by AND. The city, owner and price conditions each occur exactly when their filter is present. |
| SearchFacts.WhereInQuery | LightBnB_WebApp/db/database.js:126-174 | The whole query handed to the pool holds the ` WHERE` literal exactly once when a city, owner or price filter is given, and not at all otherwise. The count is over literal tokens. That no other literal, such as the base SELECT, contains the letters WHERE is not proved. |
| SearchFacts.RestCount | LightBnB_WebApp/db/database.js:158-174 | GROUP BY, HAVING, ORDER BY and LIMIT add no WHERE-level keyword. |
| SearchFacts.ConditionsText | LightBnB_WebApp/db/database.js:136-156 | The conditions hold only condition text. |
| SearchFacts.OrderedSplit | LightBnB_WebApp/db/database.js:158-174 | After the head come, in order: GROUP BY, HAVING for a rating, ORDER BY, the LIMIT placeholder and the terminator. |
| SearchFacts.RestOrder | LightBnB_WebApp/db/database.js:158-174 | After the head, GROUP BY comes first and nowhere else. HAVING comes second when a rating is given, and only then. |
| SearchFacts.HeadBeforeGroupBy | LightBnB_WebApp/db/database.js:136-161 | GROUP BY comes right after the head, and condition text appears only before it. |
| SearchFacts.GroupByThenHaving | LightBnB_WebApp/db/database.js:158-167 | GROUP BY stands right after the head and nowhere else. HAVING occurs only right after it and only for a rating, and a rating always produces it, whether or not WHERE filters exist. |
| SearchFacts.OrderedClauses | LightBnB_WebApp/db/database.js:158-174 | GROUP BY is present, right after the head, and unique. Conditions come before it, and it comes before HAVING. HAVING is present exactly for a rating. |
| SearchFacts.OrderedEnd | LightBnB_WebApp/db/database.js:169-174 | The query ends with ORDER BY, the LIMIT placeholder naming the last parameter, and the terminator. |
| SearchFacts.ClauseOrder | LightBnB_WebApp/db/database.js:136-174 | For every search, GROUP BY is present, right after the base SELECT and the conditions, and only there. The clauses come in SQL's order: conditions, GROUP BY, HAVING exactly when a minimum rating is given, then ORDER BY and LIMIT on the last parameter. |
| Sql.DecimalDigits | LightBnB_WebApp/db/database.js:139 | A placeholder number prints as a non-empty string of digits with no leading zero. |
| Sql.DecimalRoundTrip | LightBnB_WebApp/db/database.js:139 | The printed placeholder number reads back as the number itself. |
| Sql.ConsecutiveBindsAll | LightBnB_WebApp/db/database.js:137-173 | When the placeholders are `$1 .. $n` in order for `n` parameters, every placeholder names a parameter and every parameter is named by a placeholder. |
| Store.PropertyStore.AddProperty | LightBnB_WebApp/db/database.js:191-196 | Sets `property.id` to the old key count plus one and stores the same object under that key. Returns that object. Every other entry stays as it was. On a contiguously numbered table the id is new, and the table stays contiguous and grows by one. |
| Store.NextIdFresh | LightBnB_WebApp/db/database.js:192 | On keys `1 .. n` the next id is above every key, so no entry is replaced. |
| Store.AddKeepsContiguous | LightBnB_WebApp/db/database.js:192-194 | Storing under the next id adds one entry, keeps the keys `1 .. n+1` and leaves earlier entries in place. |
| Store.GapOverwrites | LightBnB_WebApp/db/database.js:192-194 | On keys with a gap, the key count plus one can be a key in use. The new property then replaces the one stored there and the table does not grow. |
| UserLookup.GetUserWithEmail | LightBnB_WebApp/db/database.js:19-36 | A falsy email is rejected with "Email is required", and only a falsy one. Otherwise the query `... WHERE email = $1;` goes out with the email as its parameter, and the promise settles as `Settle` says. |
| UserLookup.GetUserWithId | LightBnB_WebApp/db/database.js:43-60 | A falsy id is rejected with "ID is required", and only a falsy one. Otherwise `... WHERE id = $1;` goes out with the id. |
| UserLookup.FirstRow | LightBnB_WebApp/db/database.js:27-31 | The result is `null` exactly when there are no rows, and otherwise the first row. |
| UserLookup.Settle | LightBnB_WebApp/db/database.js:25-35 | The promise resolves to `undefined` exactly when the query failed. Otherwise it resolves to the first row or `null`. |
| UserLookup.ByParameterText | LightBnB_WebApp/db/database.js:23-24 | The text sent is the template followed by `$1;`. |
| UserLookup.ByParameterBinds | LightBnB_WebApp/db/database.js:23-24 | The only placeholder is `$1`, and it binds to the single parameter. |
| UserLookup.EmailLookupSound | LightBnB_WebApp/db/database.js:19-31 | For a supplied email, the only value the server sees is that email, in the WHERE condition on `email`. A user comes back exactly when rows came back, and it is the first row. |
| UserLookup.IdLookupSound | LightBnB_WebApp/db/database.js:43-55 | For a supplied id, the only value the server sees is that id, in the WHERE condition on `id`. A user comes back exactly when rows came back, and it is the first row. |
| UserLookup.RejectionIgnoresAnswer | LightBnB_WebApp/db/database.js:19-22 | A refused lookup sends no query, so it is the same rejection whatever the database would have answered. |

## Left out

- The `pg` pool and every `pool.query` call (database.js:3-10, 23, 47, 70, 94, 179). The database's answer to a lookup is a parameter (`UserLookup.Answer`). The rows a search returns, and the SQL semantics of JOIN, AVG, LIKE matching and row order, belong to PostgreSQL and are not modelled.
- The promise plumbing of `getAllProperties` (database.js:179-183): its `.then`/`.catch` hand rows through or log and swallow. The model stops at the query and parameters handed to the pool. The lookups' `.catch` is modelled as resolving to `undefined`.
- `console.log` (database.js:176 and the `.catch` handlers) is output only. The `require` of the JSON fixtures (database.js:1-2) loads files. The fixture's contents are not part of this model, so a store starts from any table.
- `addUser` and `getAllReservations` send a fixed SQL string and their arguments to the pool, with nothing to check locally.
- Prices, ids, ratings and the limit are integers. JavaScript's floating-point `* 100` on fractional dollar amounts is not modelled.
- Options are modelled as optional strings and numbers, falsy when absent, empty or zero. When a value reaches the layer as a string (from a query string), `"0"` is truthy in JavaScript and counts as supplied. The model does not cover that case.
- PropertySearch.GetAllProperties: an explicit `null` limit is not modelled (JavaScript applies the default 10 only to `undefined`, so `null` would be bound as the limit). An absent limit is 10.
- UserLookup.GetUserWithId: the id is modelled as a number. A string id is falsy only when empty.
- Store.PropertyStore.AddProperty: JavaScript object keys are strings. The table is keyed by the integer id, and `Object.keys(...).length` is the map's cardinality.
- The TypeErrors thrown before any promise exists are not modelled: `getAllProperties` with `options` undefined or null (database.js:137), and `addProperty(undefined)` (database.js:193). `SearchOptions` is always a record, and `AddProperty` takes a non-null `Property`.
- Placeholder numbers print through `Sql.Decimal` for non-negative integers only. Placeholders are never negative.
