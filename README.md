# LightBnB property queries and property store, in Dafny

This project models the two pieces of the LightBnB data-access layer
(`LightBnB_WebApp/server/database.js`) that can be judged without a database.

- **The property search query of `getAllProperties`.** It takes an option bag
  (`city`, `owner_id`, `minimum_price_per_night`, `maximum_price_per_night`,
  `minimum_rating`) and a limit that defaults to 10. Step by step it builds the SQL
  text and the positional parameter list that it hands to the database client.
  Each truthy option pushes one parameter and appends one condition whose `$k`
  placeholder names that parameter. The limit is pushed last.
- **`addProperty`.** It does not use the database. It numbers a property after the
  number of keys in an in-process mapping (plus one), writes that number into the
  property's `id`, and stores the property under it.

Files:

- `decimal.dfy` (module `Decimal`): the decimal text that a template literal
  `${n}` gives for an integer of magnitude below 1e21, and reading it back.
  Filter values and placeholder numbers are written this way.
- `property_query.dfy` (module `PropertyQuery`): the option bag, the builder, and
  what is proved about its result.
  - The SQL text is a sequence of tokens: literal SQL, the connectors `WHERE` and
    `AND`, and placeholders `$k`. `Render` gives the exact string the program
    builds.
  - The JavaScript array `queryParams` is a small class (`ParamList`). This makes
    the connector test `queryParams !== []` a comparison of object identities, as
    it is in JavaScript. The right-hand side is a freshly allocated array, so the
    test is always true and the connector is always `AND` (`Connector`).
  - `GetAllProperties` runs the five filter steps in the program's order, one
    method per `if` block (`FilterByCity` … `FilterByMinimumRating`). It then
    pushes the limit and appends the `GROUP BY … ORDER BY … LIMIT $n` tail.
  - The result is proved equal to a specification (`QueryFor`, `ParamsFor`).
    That specification is built from the list of active filters.
  - The lemmas state the properties of that specification:
    - the parameter layout;
    - that placeholders run `$1..$n` in order;
    - that every placeholder, read with the parameter list, is the value pushed
      for its own condition;
    - that `WHERE` is written only for the city and every other condition gets
      `AND`;
    - the `%` wrapping of the city;
    - that prices are converted to cents;
    - that the rendered SQL string has exactly one `$` per parameter, because
      no literal piece of the query contains a `$`.
- `property_store.dfy` (module `PropertyStore`): `Property` objects and the
  `PropertyTable` class, whose `rows: map<int, Property>` `AddProperty` updates
  in place. It also has lemmas about the next id when the keys are `1..n`, and
  about a collision when they are not.

The always-`AND` connector is reproduced as written. When no city is given, the
first condition is written as `AND …` directly after the `JOIN … ON` line, with
no `WHERE` in front of it. `OwnerOnlyQueryText` shows the exact text for an
owner-only search.

## Model

| member | source | states |
|---|---|---|
| PropertyQuery.GetAllProperties | LightBnB_WebApp/server/database.js:107-148 | The built query and parameter list are those of the active filters in fixed order with the limit (default 10) last; its placeholders are `$1..$n` where `n` is the number of parameters, and the last parameter is the limit |
| PropertyQuery.FilterByCity | LightBnB_WebApp/server/database.js:116-120 | A truthy city pushes the `%`-wrapped city and appends ` WHERE city LIKE $k ` with `k` the new parameter count; otherwise nothing changes |
| PropertyQuery.FilterByOwner | LightBnB_WebApp/server/database.js:121-125 | A truthy owner id appends the connector, pushes the id as text and appends ` owner_id = $k `; otherwise nothing changes |
| PropertyQuery.FilterByMinimumPrice | LightBnB_WebApp/server/database.js:127-131 | A truthy minimum price appends the connector, pushes the price times 100 as text and appends ` cost_per_night > $k ` |
| PropertyQuery.FilterByMaximumPrice | LightBnB_WebApp/server/database.js:132-136 | A truthy maximum price appends the connector, pushes the price times 100 as text and appends ` cost_per_night < $k ` |
| PropertyQuery.FilterByMinimumRating | LightBnB_WebApp/server/database.js:137-141 | A truthy minimum rating appends the connector, pushes the rating as text and appends ` property_reviews.rating >= $k` (no trailing space) |
| PropertyQuery.ApplyFilters | LightBnB_WebApp/server/database.js:108-141 | Starting from an empty parameter list and the SELECT text, the five filter steps leave exactly the clauses and parameters of the active filters, in order |
| PropertyQuery.ParamList.constructor | LightBnB_WebApp/server/database.js:108 | `queryParams` starts as an empty list |
| PropertyQuery.ParamList.Push | LightBnB_WebApp/server/database.js:118-143 | Each `push` appends its value at the end of the list and keeps everything before it |
| PropertyQuery.Connector | LightBnB_WebApp/server/database.js:122 | `queryParams !== []` compares against a new array, so the connector is always `AND` |
| PropertyQuery.ActiveFiltersSpec | LightBnB_WebApp/server/database.js:116-141 | A filter is active exactly when its option is truthy, with the option's value, and active filters keep the order city, owner, minimum price, maximum price, rating |
| PropertyQuery.ParamsLayout | LightBnB_WebApp/server/database.js:116-143 | One parameter per active filter, in the filters' order, followed by the limit as the final entry |
| PropertyQuery.CityIsFirstParam | LightBnB_WebApp/server/database.js:116-118 | When a city is given, the first parameter is the city with `%` on both sides |
| PropertyQuery.FilterParamMeaning | LightBnB_WebApp/server/database.js:118-139 | Each filter parameter is text; the city's is `%city%`, and read as a number the others give the owner id, the price times 100, or the rating |
| PropertyQuery.PlaceholdersOfClauses | LightBnB_WebApp/server/database.js:118-140 | The condition of the `j`-th active filter names `$j` and no other placeholder, so the conditions' placeholders are `$1..$m` in order |
| PropertyQuery.PlaceholdersInOrder | LightBnB_WebApp/server/database.js:118-147 | The placeholders of the whole query, in order of appearance, are exactly `$1..$n` where `n` is the length of the parameter list |
| PropertyQuery.PlaceholdersBindPushedValues | LightBnB_WebApp/server/database.js:116-148 | Reading each placeholder as the parameter it names yields every condition with the value pushed for it, and the limit after `LIMIT` |
| PropertyQuery.NoUnboundPlaceholder | LightBnB_WebApp/server/database.js:118-147 | Every placeholder in the query names an entry of the parameter list, so none is left unbound |
| PropertyQuery.CityComesFirst | LightBnB_WebApp/server/database.js:116-121 | The city filter, if any, is the first filter, and it is present exactly when the city is truthy |
| PropertyQuery.ConnectorsOfClauses | LightBnB_WebApp/server/database.js:119-138 | Each condition contributes exactly its own connector, in order: `WHERE` for the city, `AND` for the others |
| PropertyQuery.ConnectorsOfQuery | LightBnB_WebApp/server/database.js:116-141 | The query's connectors are `WHERE` once if and only if a city is given, then one `AND` per other active filter, whether or not a `WHERE` came before |
| PropertyQuery.RenderAppend | LightBnB_WebApp/server/database.js:109-148 | Rendering the token sequence matches building the string with `+=`: the text of two pieces one after the other is the first piece's text followed by the second's |
| PropertyQuery.QueryDollarsMatchParams | LightBnB_WebApp/server/database.js:109-148 | The SQL string passed to the database contains exactly as many `$` characters as there are parameters, so each `$` in the text is one of the placeholders `$1..$n` |
| PropertyQuery.RenderLimitClause | LightBnB_WebApp/server/database.js:144-148 | The query text ends with `GROUP BY properties.id`, `ORDER BY cost_per_night` and `LIMIT $n;` |
| PropertyQuery.OwnerOnlyQueryText | LightBnB_WebApp/server/database.js:109-148 | For an owner-only search with the default limit, the exact text is the SELECT, then `AND owner_id = $1 ` with no `WHERE`, then the tail with `LIMIT $2;` |
| PropertyQuery.OwnerOnlyParams | LightBnB_WebApp/server/database.js:121-143 | For that search the parameters are the owner id as text and then the number 10 |
| Decimal.FromInt | LightBnB_WebApp/server/database.js:118-147 | The text of an integer is non-empty, starts with `-` exactly when the integer is negative, and otherwise consists of decimal digits |
| Decimal.ToIntFromInt | LightBnB_WebApp/server/database.js:123-139 | Reading back the decimal text that a template literal gives for an integer yields that integer |
| Decimal.FromIntInjective | LightBnB_WebApp/server/database.js:123-139 | Two integers have the same decimal text exactly when they are equal |
| PropertyStore.PropertyTable.AddProperty | LightBnB_WebApp/server/database.js:165-170 | The id is the number of keys plus one and is written into the given object, which is stored under it and returned; every other key keeps its value; keys `1..n` become `1..n+1`; stored ids keep matching their keys when the object was not already stored |
| PropertyStore.NextIdIsFresh | LightBnB_WebApp/server/database.js:166-168 | If the keys are exactly `1..n`, the next id is `n+1`, is not a key yet, and storing under it grows the mapping by exactly one |
| PropertyStore.NextIdCollidesAfterGap | LightBnB_WebApp/server/database.js:166-168 | With a gap in the keys the next id can already be a key, and storing under it overwrites that entry without growing the mapping |
| PropertyStore.SameIdTwiceAfterGap | LightBnB_WebApp/server/database.js:165-170 | Two `addProperty` calls in a row on a mapping whose only key is 2 both hand out id 2, and the second property replaces the first |

## Left out

- The `pg` connection pool and its hard-coded configuration (`database.js:5-10`). These are I/O to an external database. The model stops at the query text and parameter list that `getAllProperties` passes to `pool.query`.
- `getUserWithEmail`, `getUserWithId`, `addUser` and `getAllReservations`. Each passes a fixed SQL string to the database. What they return (matching, joins, `avg`, ordering, `now()`, the hard-coded `LIMIT 10`) is decided by PostgreSQL.
- The `.catch` branches of `addUser` and `getAllReservations`, which return the error as data. These are Promise plumbing around the database call.
- What rows the built query returns. `LIKE`, the rating test on individual review rows, `GROUP BY`, `ORDER BY` and `LIMIT` are evaluated by the database. So is whether an `AND` that follows the `JOIN … ON` line is read as part of the join condition.
- `console.log`, the Promise wrappers, and the loading of the JSON fixture files (`database.js:1-2`). `PropertyTable`'s constructor takes the loaded mapping as a parameter.
- JavaScript value coercions:
  - Options are typed: the city is a string and the other options are integers. Truthiness is "present and not empty" for the city and "present and not zero" for numbers; `false`, `null` and `NaN` are not modelled.
  - Prices are integers, so `x*100` is exact. Fractional prices and floating-point rounding in `${x*100}` are not modelled.
- `Decimal.FromInt` and `PropertyQuery.FilterParamMeaning`: integers are unbounded and always written as full decimal digits. JavaScript numbers hold integers exactly only up to 2^53, and `${n}` switches to exponent form at magnitude 1e21 (a minimum price of 1e19 is pushed as `"1e+21"`). Values that large are not modelled.
  - The limit is an integer and is pushed as a number, as written.
- `PropertyStore.PropertyTable.AddProperty`: JavaScript object keys are strings. The model keys the mapping by integers, so it does not distinguish `"1"` from `1`.
- `PropertyStore.PropertyTable.AddProperty`: the model is sequential. Two concurrent callers computing the same id is not modelled.
