/**
 * The dynamic query of getAllProperties: from an option bag and a limit it
 * assembles, one filter at a time, the SQL text and the positional parameter
 * list that are handed to the database client.
 *
 * The SQL text is kept as a sequence of tokens. `Render` turns it into the exact
 * string the program builds; the tokens keep the connectors `WHERE`/`AND` and the
 * placeholders `$k` apart so that what is said about them can be stated.
 */
module PropertyQuery {
  import Decimal

  datatype Option<T> = None | Some(value: T)

  /** The option bag; a key the caller leaves out is `None`. */
  datatype Options = Options(
    city: Option<string>,
    ownerId: Option<int>,
    minimumPricePerNight: Option<int>,
    maximumPricePerNight: Option<int>,
    minimumRating: Option<int>)

  /** JavaScript truthiness of an optional string: present and not empty. */
  predicate TruthyText(v: Option<string>) {
    v.Some? && v.value != ""
  }

  /** JavaScript truthiness of an optional number: present and not zero. */
  predicate TruthyNumber(v: Option<int>) {
    v.Some? && v.value != 0
  }

  /** The limit used when the caller gives none. */
  const DefaultLimit: int := 10

  /** An entry of the parameter list: filters push text, the limit pushes a number. */
  datatype Param = Text(text: string) | Number(n: int)

  /** A piece of the SQL text. */
  datatype Token = Sql(text: string) | Where | And | Placeholder(index: nat)

  // The fixed text of the query, written in short pieces (the verifier reasons
  // about the characters of a short literal more readily than of a long one).
  const SelectText: string :=
    "\n  SELECT properties.*, "
    + "avg(property_reviews.rating) "
    + "as average_rating\n  "
    + "FROM properties\n  "
    + "JOIN property_reviews "
    + "ON properties.id = "
    + "property_id\n  "
  const GroupOrderLimitText: string :=
    "\n  GROUP BY properties.id"
    + "\n  ORDER BY cost_per_night"
    + "\n  LIMIT "
  const EndText: string := ";\n  "

  /** The exact SQL string a token sequence stands for. */
  function Render(q: seq<Token>): string {
    if q == [] then ""
    else
      (match q[0]
       case Sql(t) => t
       case Where => "WHERE"
       case And => "AND"
       case Placeholder(k) => "$" + Decimal.FromInt(k))
      + Render(q[1..])
  }

  // ---------------------------------------------------------------------------
  // Specification: the filters that apply and what each one contributes
  // ---------------------------------------------------------------------------

  /** A filter the option bag switches on, with the option's value. */
  datatype Filter =
    | CityLike(city: string)
    | OwnerIs(ownerId: int)
    | MinPrice(dollars: int)
    | MaxPrice(dollars: int)
    | MinRating(rating: int)

  /** The place of each filter in the fixed order the program tests them in. */
  function Rank(f: Filter): nat {
    match f
    case CityLike(_) => 0
    case OwnerIs(_) => 1
    case MinPrice(_) => 2
    case MaxPrice(_) => 3
    case MinRating(_) => 4
  }

  /** The truthy options, as filters, in the order city, owner, minimum price, maximum price, rating. */
  function ActiveFilters(o: Options): seq<Filter> {
    (if TruthyText(o.city) then [CityLike(o.city.value)] else [])
    + (if TruthyNumber(o.ownerId) then [OwnerIs(o.ownerId.value)] else [])
    + (if TruthyNumber(o.minimumPricePerNight) then [MinPrice(o.minimumPricePerNight.value)] else [])
    + (if TruthyNumber(o.maximumPricePerNight) then [MaxPrice(o.maximumPricePerNight.value)] else [])
    + (if TruthyNumber(o.minimumRating) then [MinRating(o.minimumRating.value)] else [])
  }

  /** The city pattern for LIKE: the city with `%` on both sides. */
  function CityPattern(city: string): string {
    "%" + city + "%"
  }

  /** What the program pushes for a filter: the pattern, or the value (prices times 100) as decimal text. */
  function FilterParam(f: Filter): Param {
    match f
    case CityLike(c) => Text(CityPattern(c))
    case OwnerIs(id) => Text(Decimal.FromInt(id))
    case MinPrice(d) => Text(Decimal.FromInt(d * 100))
    case MaxPrice(d) => Text(Decimal.FromInt(d * 100))
    case MinRating(r) => Text(Decimal.FromInt(r))
  }

  /** What the program appends for a filter whose value was pushed as the `k`-th parameter. */
  function FilterClause(f: Filter, k: nat): seq<Token> {
    match f
    case CityLike(_) => [Sql(" "), Where, Sql(" city LIKE "), Placeholder(k), Sql(" ")]
    case OwnerIs(_) => [And, Sql(" owner_id = "), Placeholder(k), Sql(" ")]
    case MinPrice(_) => [And, Sql(" cost_per_night > "), Placeholder(k), Sql(" ")]
    case MaxPrice(_) => [And, Sql(" cost_per_night < "), Placeholder(k), Sql(" ")]
    case MinRating(_) => [And, Sql(" property_reviews.rating >= "), Placeholder(k)]
  }

  /** The clauses of a filter list, the `j`-th (from 1) naming parameter `$j`. */
  function Clauses(fs: seq<Filter>): seq<Token>
    decreases |fs|
  {
    if fs == [] then [] else Clauses(fs[..|fs| - 1]) + FilterClause(fs[|fs| - 1], |fs|)
  }

  /** The parameters of a filter list, one per filter, in order. */
  function FilterParams(fs: seq<Filter>): seq<Param> {
    seq(|fs|, j requires 0 <= j < |fs| => FilterParam(fs[j]))
  }

  /** The tail of every query: grouping, ordering and the limit as parameter `$n`. */
  function LimitClause(n: nat): seq<Token> {
    [Sql(GroupOrderLimitText), Placeholder(n), Sql(EndText)]
  }

  /** The query for a list of active filters: SELECT, their clauses, then the limit clause. */
  function QueryOf(fs: seq<Filter>): seq<Token> {
    [Sql(SelectText)] + Clauses(fs) + LimitClause(|fs| + 1)
  }

  /** The parameters for a list of active filters: theirs, then the limit. */
  function ParamsOf(fs: seq<Filter>, limit: int): seq<Param> {
    FilterParams(fs) + [Number(limit)]
  }

  /** The query getAllProperties passes to the database. */
  function QueryFor(o: Options, limit: int): seq<Token> {
    QueryOf(ActiveFilters(o))
  }

  /** The parameter list getAllProperties passes to the database. */
  function ParamsFor(o: Options, limit: int): seq<Param> {
    ParamsOf(ActiveFilters(o), limit)
  }

  // ---------------------------------------------------------------------------
  // The builder, step by step
  // ---------------------------------------------------------------------------

  /** The JavaScript array `queryParams`: an object that `push` appends to. */
  class ParamList {
    var items: seq<Param>

    constructor ()
      ensures items == []
    {
      items := [];
    }

    method Push(p: Param)
      modifies this
      ensures items == old(items) + [p]
    {
      items := items + [p];
    }
  }

  /**
   * The connector `(queryParams !== []) ? 'AND' : 'WHERE'`. The literal `[]` is a
   * new array, never the same object as `queryParams`, so the answer is always AND.
   */
  method Connector(queryParams: ParamList) returns (t: Token)
    ensures t == And
  {
    var emptyLiteral := new ParamList();
    t := if queryParams != emptyLiteral then And else Where;
  }

  /** Appending a filter appends its clause, naming the new last parameter, and its parameter. */
  lemma ClausesSnoc(fs: seq<Filter>, f: Filter)
    ensures Clauses(fs + [f]) == Clauses(fs) + FilterClause(f, |fs| + 1)
  {
    var g := fs + [f];
    assert g[..|fs|] == fs;
  }

  lemma FilterParamsSnoc(fs: seq<Filter>, f: Filter)
    ensures FilterParams(fs + [f]) == FilterParams(fs) + [FilterParam(f)]
  {
  }

  /** `query` and the parameter list are what the filters `done` contribute, in order. */
  ghost predicate Built(query: seq<Token>, params: seq<Param>, done: seq<Filter>) {
    query == [Sql(SelectText)] + Clauses(done) && params == FilterParams(done)
  }

  /** The `city` step: push the wrapped city, then append the WHERE clause naming it. */
  method FilterByCity(options: Options, queryParams: ParamList, query: seq<Token>, ghost done: seq<Filter>)
    returns (query': seq<Token>, ghost done': seq<Filter>)
    requires Built(query, queryParams.items, done)
    modifies queryParams
    ensures done' == done + (if TruthyText(options.city) then [CityLike(options.city.value)] else [])
    ensures Built(query', queryParams.items, done')
  {
    query', done' := query, done;
    if TruthyText(options.city) {
      queryParams.Push(Text(CityPattern(options.city.value)));
      query' := query' + [Sql(" "), Where, Sql(" city LIKE "), Placeholder(|queryParams.items|), Sql(" ")];
      ClausesSnoc(done, CityLike(options.city.value));
      FilterParamsSnoc(done, CityLike(options.city.value));
      done' := done + [CityLike(options.city.value)];
    }
  }

  /** The `owner_id` step: connector, push the owner id as text, append the equality naming it. */
  method FilterByOwner(options: Options, queryParams: ParamList, query: seq<Token>, ghost done: seq<Filter>)
    returns (query': seq<Token>, ghost done': seq<Filter>)
    requires Built(query, queryParams.items, done)
    modifies queryParams
    ensures done' == done + (if TruthyNumber(options.ownerId) then [OwnerIs(options.ownerId.value)] else [])
    ensures Built(query', queryParams.items, done')
  {
    query', done' := query, done;
    if TruthyNumber(options.ownerId) {
      var connector := Connector(queryParams);
      query' := query' + [connector];
      queryParams.Push(Text(Decimal.FromInt(options.ownerId.value)));
      query' := query' + [Sql(" owner_id = "), Placeholder(|queryParams.items|), Sql(" ")];
      ClausesSnoc(done, OwnerIs(options.ownerId.value));
      FilterParamsSnoc(done, OwnerIs(options.ownerId.value));
      done' := done + [OwnerIs(options.ownerId.value)];
    }
  }

  /** The `minimum_price_per_night` step: the price times 100 is pushed and compared with `>`. */
  method FilterByMinimumPrice(options: Options, queryParams: ParamList, query: seq<Token>, ghost done: seq<Filter>)
    returns (query': seq<Token>, ghost done': seq<Filter>)
    requires Built(query, queryParams.items, done)
    modifies queryParams
    ensures done' == done + (if TruthyNumber(options.minimumPricePerNight) then [MinPrice(options.minimumPricePerNight.value)] else [])
    ensures Built(query', queryParams.items, done')
  {
    query', done' := query, done;
    if TruthyNumber(options.minimumPricePerNight) {
      var connector := Connector(queryParams);
      query' := query' + [connector];
      queryParams.Push(Text(Decimal.FromInt(options.minimumPricePerNight.value * 100)));
      query' := query' + [Sql(" cost_per_night > "), Placeholder(|queryParams.items|), Sql(" ")];
      ClausesSnoc(done, MinPrice(options.minimumPricePerNight.value));
      FilterParamsSnoc(done, MinPrice(options.minimumPricePerNight.value));
      done' := done + [MinPrice(options.minimumPricePerNight.value)];
    }
  }

  /** The `maximum_price_per_night` step: the price times 100 is pushed and compared with `<`. */
  method FilterByMaximumPrice(options: Options, queryParams: ParamList, query: seq<Token>, ghost done: seq<Filter>)
    returns (query': seq<Token>, ghost done': seq<Filter>)
    requires Built(query, queryParams.items, done)
    modifies queryParams
    ensures done' == done + (if TruthyNumber(options.maximumPricePerNight) then [MaxPrice(options.maximumPricePerNight.value)] else [])
    ensures Built(query', queryParams.items, done')
  {
    query', done' := query, done;
    if TruthyNumber(options.maximumPricePerNight) {
      var connector := Connector(queryParams);
      query' := query' + [connector];
      queryParams.Push(Text(Decimal.FromInt(options.maximumPricePerNight.value * 100)));
      query' := query' + [Sql(" cost_per_night < "), Placeholder(|queryParams.items|), Sql(" ")];
      ClausesSnoc(done, MaxPrice(options.maximumPricePerNight.value));
      FilterParamsSnoc(done, MaxPrice(options.maximumPricePerNight.value));
      done' := done + [MaxPrice(options.maximumPricePerNight.value)];
    }
  }

  /** The `minimum_rating` step: the rating is pushed and compared with `>=` per review row. */
  method FilterByMinimumRating(options: Options, queryParams: ParamList, query: seq<Token>, ghost done: seq<Filter>)
    returns (query': seq<Token>, ghost done': seq<Filter>)
    requires Built(query, queryParams.items, done)
    modifies queryParams
    ensures done' == done + (if TruthyNumber(options.minimumRating) then [MinRating(options.minimumRating.value)] else [])
    ensures Built(query', queryParams.items, done')
  {
    query', done' := query, done;
    if TruthyNumber(options.minimumRating) {
      var connector := Connector(queryParams);
      query' := query' + [connector];
      queryParams.Push(Text(Decimal.FromInt(options.minimumRating.value)));
      query' := query' + [Sql(" property_reviews.rating >= "), Placeholder(|queryParams.items|)];
      ClausesSnoc(done, MinRating(options.minimumRating.value));
      FilterParamsSnoc(done, MinRating(options.minimumRating.value));
      done' := done + [MinRating(options.minimumRating.value)];
    }
  }

  /** The SELECT, then the five filter steps in the program's order. */
  method ApplyFilters(options: Options, queryParams: ParamList) returns (query: seq<Token>)
    requires queryParams.items == []
    modifies queryParams
    ensures Built(query, queryParams.items, ActiveFilters(options))
  {
    query := [Sql(SelectText)];
    ghost var done: seq<Filter> := [];
    assert Clauses(done) == [] && FilterParams(done) == [];
    query, done := FilterByCity(options, queryParams, query, done);
    query, done := FilterByOwner(options, queryParams, query, done);
    query, done := FilterByMinimumPrice(options, queryParams, query, done);
    query, done := FilterByMaximumPrice(options, queryParams, query, done);
    query, done := FilterByMinimumRating(options, queryParams, query, done);
    assert done == ActiveFilters(options);
  }

  /**
   * getAllProperties up to the call of the database client: the SQL text and
   * the parameter list it builds.
   */
  method GetAllProperties(options: Options, limit: int := DefaultLimit)
    returns (query: seq<Token>, params: seq<Param>)
    ensures query == QueryFor(options, limit)
    ensures params == ParamsFor(options, limit)
    ensures Placeholders(query) == OneTo(|params|)
    ensures params[|params| - 1] == Number(limit)
  {
    var queryParams := new ParamList();
    query := ApplyFilters(options, queryParams);
    FinishQuery(options, limit, query, queryParams.items);

    queryParams.Push(Number(limit));
    query := query + [Sql(GroupOrderLimitText), Placeholder(|queryParams.items|), Sql(EndText)];
    params := queryParams.items;
    PlaceholdersInOrder(options, limit);
  }

  /** Once all filter steps are done, appending the limit gives the specified query and parameters. */
  lemma FinishQuery(o: Options, limit: int, query: seq<Token>, items: seq<Param>)
    requires Built(query, items, ActiveFilters(o))
    ensures |items| == |ActiveFilters(o)|
    ensures query + LimitClause(|items| + 1) == QueryFor(o, limit)
    ensures items + [Number(limit)] == ParamsFor(o, limit)
  {
  }

  // ---------------------------------------------------------------------------
  // Placeholders and parameter positions
  // ---------------------------------------------------------------------------

  /** The placeholder numbers of a query, in the order they appear. */
  function Placeholders(q: seq<Token>): seq<nat> {
    if q == [] then []
    else (if q[0].Placeholder? then [q[0].index] else []) + Placeholders(q[1..])
  }

  /** The numbers 1, 2, ..., n. */
  function OneTo(n: nat): (r: seq<nat>)
    ensures |r| == n
    ensures forall i :: 0 <= i < n ==> r[i] == i + 1
  {
    seq(n, i => i + 1)
  }

  lemma OneToSnoc(n: nat)
    ensures OneTo(n) + [n + 1] == OneTo(n + 1)
  {
  }

  lemma {:induction false} PlaceholdersAppend(a: seq<Token>, b: seq<Token>)
    ensures Placeholders(a + b) == Placeholders(a) + Placeholders(b)
    decreases |a|
  {
    if a == [] {
      assert a + b == b;
    } else {
      assert (a + b)[0] == a[0];
      assert (a + b)[1..] == a[1..] + b;
      PlaceholdersAppend(a[1..], b);
    }
  }

  /** A query with exactly one placeholder token has exactly that placeholder. */
  lemma {:induction false} PlaceholdersSingle(q: seq<Token>, p: nat)
    requires p < |q| && q[p].Placeholder?
    requires forall i :: 0 <= i < |q| && i != p ==> !q[i].Placeholder?
    ensures Placeholders(q) == [q[p].index]
    decreases |q|
  {
    if p == 0 {
      PlaceholdersNone(q[1..]);
    } else {
      PlaceholdersSingle(q[1..], p - 1);
    }
  }

  lemma {:induction false} PlaceholdersNone(q: seq<Token>)
    requires forall i :: 0 <= i < |q| ==> !q[i].Placeholder?
    ensures Placeholders(q) == []
    decreases |q|
  {
    if q != [] {
      PlaceholdersNone(q[1..]);
    }
  }

  lemma PlaceholdersOfClause(f: Filter, k: nat)
    ensures Placeholders(FilterClause(f, k)) == [k]
  {
    var q := FilterClause(f, k);
    if f.CityLike? {
      PlaceholdersSingle(q, 3);
    } else {
      PlaceholdersSingle(q, 2);
    }
  }

  /** The clause of the `j`-th filter names `$j`, and no other placeholder appears. */
  lemma {:induction false} PlaceholdersOfClauses(fs: seq<Filter>)
    ensures Placeholders(Clauses(fs)) == OneTo(|fs|)
    decreases |fs|
  {
    if fs != [] {
      var n := |fs|;
      PlaceholdersOfClauses(fs[..n - 1]);
      PlaceholdersAppend(Clauses(fs[..n - 1]), FilterClause(fs[n - 1], n));
      PlaceholdersOfClause(fs[n - 1], n);
      OneToSnoc(n - 1);
    }
  }

  /**
   * The placeholders of the query are `$1`, ..., `$n` in this order, where `n` is
   * the length of the parameter list: each names the value pushed just before it.
   */
  lemma PlaceholdersInOrder(o: Options, limit: int)
    ensures Placeholders(QueryFor(o, limit)) == OneTo(|ParamsFor(o, limit)|)
  {
    PlaceholdersOfQuery(ActiveFilters(o), limit);
  }

  lemma PlaceholdersOfQuery(fs: seq<Filter>, limit: int)
    ensures Placeholders(QueryOf(fs)) == OneTo(|ParamsOf(fs, limit)|)
  {
    var n := |fs| + 1;
    assert |ParamsOf(fs, limit)| == n;
    var head := [Sql(SelectText)] + Clauses(fs);
    assert Placeholders(head) == OneTo(n - 1) by {
      PlaceholdersAppend([Sql(SelectText)], Clauses(fs));
      PlaceholdersNone([Sql(SelectText)]);
      PlaceholdersOfClauses(fs);
    }
    PlaceholdersAppend(head, LimitClause(n));
    PlaceholdersSingle(LimitClause(n), 1);
    OneToSnoc(n - 1);
  }

  // ---------------------------------------------------------------------------
  // Which filters apply, in which order, and what each parameter holds
  // ---------------------------------------------------------------------------

  /**
   * Exactly the truthy options become filters, each with the option's value,
   * and they keep the fixed order city, owner, minimum price, maximum price, rating.
   */
  lemma ActiveFiltersSpec(o: Options)
    ensures var fs := ActiveFilters(o);
      (forall i, j :: 0 <= i < j < |fs| ==> Rank(fs[i]) < Rank(fs[j]))
      && (forall c :: CityLike(c) in fs <==> TruthyText(o.city) && c == o.city.value)
      && (forall id :: OwnerIs(id) in fs <==> TruthyNumber(o.ownerId) && id == o.ownerId.value)
      && (forall d :: MinPrice(d) in fs <==> TruthyNumber(o.minimumPricePerNight) && d == o.minimumPricePerNight.value)
      && (forall d :: MaxPrice(d) in fs <==> TruthyNumber(o.maximumPricePerNight) && d == o.maximumPricePerNight.value)
      && (forall r :: MinRating(r) in fs <==> TruthyNumber(o.minimumRating) && r == o.minimumRating.value)
  {
    ActiveFiltersOrdered(o);
    CityPresent(o);
    OwnerPresent(o);
    PricesPresent(o);
    RatingPresent(o);
  }

  // The parts of ActiveFiltersSpec, one per option, so that each proof only
  // has to unfold ActiveFilters for the option it is about.

  lemma ActiveFiltersOrdered(o: Options)
    ensures var fs := ActiveFilters(o);
      forall i, j :: 0 <= i < j < |fs| ==> Rank(fs[i]) < Rank(fs[j])
  {
  }

  lemma CityPresent(o: Options)
    ensures forall c :: CityLike(c) in ActiveFilters(o) <==> TruthyText(o.city) && c == o.city.value
  {
  }

  lemma OwnerPresent(o: Options)
    ensures forall id :: OwnerIs(id) in ActiveFilters(o) <==> TruthyNumber(o.ownerId) && id == o.ownerId.value
  {
  }

  lemma PricesPresent(o: Options)
    ensures forall d ::
      (MinPrice(d) in ActiveFilters(o) <==> TruthyNumber(o.minimumPricePerNight) && d == o.minimumPricePerNight.value)
    ensures forall d ::
      (MaxPrice(d) in ActiveFilters(o) <==> TruthyNumber(o.maximumPricePerNight) && d == o.maximumPricePerNight.value)
  {
  }

  lemma RatingPresent(o: Options)
    ensures forall r :: MinRating(r) in ActiveFilters(o) <==> TruthyNumber(o.minimumRating) && r == o.minimumRating.value
  {
  }

  /**
   * One parameter per active filter, in the filters' order, then the limit as
   * the last entry.
   */
  lemma ParamsLayout(o: Options, limit: int)
    ensures var fs, ps := ActiveFilters(o), ParamsFor(o, limit);
      |ps| == |fs| + 1
      && ps[|fs|] == Number(limit)
      && forall j :: 0 <= j < |fs| ==> ps[j] == FilterParam(fs[j])
  {
  }

  /** When a city is given it is the first parameter, wrapped in `%` on both sides. */
  lemma CityIsFirstParam(o: Options, limit: int)
    requires TruthyText(o.city)
    ensures ParamsFor(o, limit)[0] == Text("%" + o.city.value + "%")
  {
  }

  /**
   * What the database reads from each filter's parameter: the LIKE pattern for a
   * city, the owner id, the prices in cents (times 100), the rating.
   */
  lemma FilterParamMeaning(f: Filter)
    ensures FilterParam(f).Text?
    ensures f.CityLike? ==> FilterParam(f).text == "%" + f.city + "%"
    ensures f.OwnerIs? ==> Decimal.ToInt(FilterParam(f).text) == f.ownerId
    ensures f.MinPrice? || f.MaxPrice? ==> Decimal.ToInt(FilterParam(f).text) == 100 * f.dollars
    ensures f.MinRating? ==> Decimal.ToInt(FilterParam(f).text) == f.rating
  {
    match f
    case CityLike(_) =>
    case OwnerIs(id) => Decimal.ToIntFromInt(id);
    case MinPrice(d) => Decimal.ToIntFromInt(d * 100);
    case MaxPrice(d) => Decimal.ToIntFromInt(d * 100);
    case MinRating(r) => Decimal.ToIntFromInt(r);
  }

  // ---------------------------------------------------------------------------
  // Connectors: WHERE only for the city, AND for everything else
  // ---------------------------------------------------------------------------

  /** The connector tokens of a query, in the order they appear. */
  function Connectors(q: seq<Token>): seq<Token> {
    if q == [] then []
    else (if q[0] == Where || q[0] == And then [q[0]] else []) + Connectors(q[1..])
  }

  /** The connector the program writes in front of a filter's condition. */
  function ConnectorOf(f: Filter): Token {
    if f.CityLike? then Where else And
  }

  /** The connectors of a filter list's conditions, one per filter, in order. */
  function FilterConnectors(fs: seq<Filter>): seq<Token>
    decreases |fs|
  {
    if fs == [] then [] else FilterConnectors(fs[..|fs| - 1]) + [ConnectorOf(fs[|fs| - 1])]
  }

  lemma {:induction false} ConnectorsAppend(a: seq<Token>, b: seq<Token>)
    ensures Connectors(a + b) == Connectors(a) + Connectors(b)
    decreases |a|
  {
    if a == [] {
      assert a + b == b;
    } else {
      assert (a + b)[0] == a[0];
      assert (a + b)[1..] == a[1..] + b;
      ConnectorsAppend(a[1..], b);
    }
  }

  lemma {:induction false} ConnectorsSingle(q: seq<Token>, p: nat)
    requires p < |q| && (q[p] == Where || q[p] == And)
    requires forall i :: 0 <= i < |q| && i != p ==> q[i] != Where && q[i] != And
    ensures Connectors(q) == [q[p]]
    decreases |q|
  {
    if p == 0 {
      ConnectorsNone(q[1..]);
    } else {
      ConnectorsSingle(q[1..], p - 1);
    }
  }

  lemma {:induction false} ConnectorsNone(q: seq<Token>)
    requires forall i :: 0 <= i < |q| ==> q[i] != Where && q[i] != And
    ensures Connectors(q) == []
    decreases |q|
  {
    if q != [] {
      ConnectorsNone(q[1..]);
    }
  }

  lemma ConnectorsOfClause(f: Filter, k: nat)
    ensures Connectors(FilterClause(f, k)) == [ConnectorOf(f)]
  {
    if f.CityLike? {
      ConnectorsSingle(FilterClause(f, k), 1);
    } else {
      ConnectorsSingle(FilterClause(f, k), 0);
    }
  }

  /** Each filter's clause contributes exactly its own connector, in order. */
  lemma {:induction false} ConnectorsOfClauses(fs: seq<Filter>)
    ensures Connectors(Clauses(fs)) == FilterConnectors(fs)
    decreases |fs|
  {
    if fs != [] {
      var n := |fs|;
      ConnectorsOfClauses(fs[..n - 1]);
      ConnectorsAppend(Clauses(fs[..n - 1]), FilterClause(fs[n - 1], n));
      ConnectorsOfClause(fs[n - 1], n);
    }
  }

  /**
   * The connectors of the query: `WHERE` first when a city is given, and not at
   * all otherwise; then `AND` for every other filter, even when no `WHERE`
   * precedes it. So `WHERE` appears at most once, and only with a city.
   */
  lemma ConnectorsOfQuery(o: Options, limit: int)
    ensures var fs, w := ActiveFilters(o), if TruthyText(o.city) then 1 else 0;
      Connectors(QueryFor(o, limit))
        == (if TruthyText(o.city) then [Where] else []) + seq(|fs| - w, _ => And)
  {
    CityComesFirst(o);
    ConnectorsOfQueryOf(ActiveFilters(o));
  }

  lemma ConnectorsOfQueryOf(fs: seq<Filter>)
    requires forall i :: 0 < i < |fs| ==> !fs[i].CityLike?
    ensures var w := if |fs| > 0 && fs[0].CityLike? then 1 else 0;
      Connectors(QueryOf(fs)) == (if w == 1 then [Where] else []) + seq(|fs| - w, _ => And)
  {
    ConnectorsAppend([Sql(SelectText)], Clauses(fs));
    ConnectorsAppend([Sql(SelectText)] + Clauses(fs), LimitClause(|fs| + 1));
    ConnectorsNone([Sql(SelectText)]);
    ConnectorsNone(LimitClause(|fs| + 1));
    ConnectorsOfClauses(fs);
    ConnectorsOfFilters(fs);
  }

  /** A city filter, when there is one, is the first filter, and no other filter is one. */
  lemma CityComesFirst(o: Options)
    ensures var fs := ActiveFilters(o);
      (forall i :: 0 < i < |fs| ==> !fs[i].CityLike?)
      && (|fs| > 0 && fs[0].CityLike? <==> TruthyText(o.city))
  {
    var fs := ActiveFilters(o);
    ActiveFiltersSpec(o);
    if TruthyText(o.city) {
      assert CityLike(o.city.value) in fs;
    }
    assert forall i :: 0 < i < |fs| ==> Rank(fs[0]) < Rank(fs[i]);
  }

  lemma {:induction false} ConnectorsOfFilters(fs: seq<Filter>)
    requires forall i :: 0 < i < |fs| ==> !fs[i].CityLike?
    ensures var w := if |fs| > 0 && fs[0].CityLike? then 1 else 0;
      FilterConnectors(fs) == (if w == 1 then [Where] else []) + seq(|fs| - w, _ => And)
    decreases |fs|
  {
    var n := |fs|;
    if n > 1 || (n == 1 && !fs[0].CityLike?) {
      var init := fs[..n - 1];
      ConnectorsOfFilters(init);
      var w := if fs[0].CityLike? then 1 else 0;
      assert n > 1 ==> init[0] == fs[0];
      assert ConnectorOf(fs[n - 1]) == And;
      assert seq(n - 1 - w, _ => And) + [And] == seq(n - w, _ => And);
    }
  }

  // ---------------------------------------------------------------------------
  // Binding: each placeholder names the value pushed for its own clause
  // ---------------------------------------------------------------------------

  /** A token with its placeholder, if any, replaced by the parameter it names. */
  datatype Bound = Lit(token: Token) | Arg(param: Param)

  /** What a placeholder stands for; one out of range stays unbound. */
  function BindToken(t: Token, ps: seq<Param>): Bound {
    if t.Placeholder? && 1 <= t.index <= |ps| then Arg(ps[t.index - 1]) else Lit(t)
  }

  /** The query as the database reads it with the parameter list. */
  function Bind(q: seq<Token>, ps: seq<Param>): seq<Bound> {
    seq(|q|, i requires 0 <= i < |q| => BindToken(q[i], ps))
  }

  /** A filter's clause bound to its own value alone. */
  function Inlined(f: Filter): seq<Bound> {
    Bind(FilterClause(f, 1), [FilterParam(f)])
  }

  /** The clauses of a filter list, each bound to its own value. */
  function InlinedAll(fs: seq<Filter>): seq<Bound>
    decreases |fs|
  {
    if fs == [] then [] else InlinedAll(fs[..|fs| - 1]) + Inlined(fs[|fs| - 1])
  }

  /** A placeholder that names no parameter. */
  predicate Unbound(b: Bound) {
    b.Lit? && b.token.Placeholder?
  }

  lemma {:induction false} InlinedAllBound(fs: seq<Filter>)
    ensures forall b :: b in InlinedAll(fs) ==> !Unbound(b)
    decreases |fs|
  {
    if fs != [] {
      InlinedAllBound(fs[..|fs| - 1]);
      var f := fs[|fs| - 1];
      assert forall i :: 0 <= i < |FilterClause(f, 1)| && FilterClause(f, 1)[i].Placeholder? ==> FilterClause(f, 1)[i].index == 1;
    }
  }

  lemma BindAppend(a: seq<Token>, b: seq<Token>, ps: seq<Param>)
    ensures Bind(a + b, ps) == Bind(a, ps) + Bind(b, ps)
  {
    assert forall i :: 0 <= i < |a + b| ==> Bind(a + b, ps)[i] == (Bind(a, ps) + Bind(b, ps))[i];
  }

  lemma BindClause(f: Filter, k: nat, ps: seq<Param>)
    requires 1 <= k <= |ps| && ps[k - 1] == FilterParam(f)
    ensures Bind(FilterClause(f, k), ps) == Inlined(f)
  {
  }

  lemma {:induction false} BindClauses(fs: seq<Filter>, ps: seq<Param>)
    requires |fs| <= |ps|
    requires forall j :: 0 <= j < |fs| ==> ps[j] == FilterParam(fs[j])
    ensures Bind(Clauses(fs), ps) == InlinedAll(fs)
    decreases |fs|
  {
    if fs != [] {
      var n := |fs|;
      BindClauses(fs[..n - 1], ps);
      BindAppend(Clauses(fs[..n - 1]), FilterClause(fs[n - 1], n), ps);
      BindClause(fs[n - 1], n, ps);
    }
  }

  /**
   * Read together with the parameter list, the query is the SELECT, then every
   * active filter's clause with its own value in place of its placeholder, then
   * the grouping and ordering with the limit.
   */
  lemma PlaceholdersBindPushedValues(o: Options, limit: int)
    ensures Bind(QueryFor(o, limit), ParamsFor(o, limit))
      == [Lit(Sql(SelectText))] + InlinedAll(ActiveFilters(o))
         + [Lit(Sql(GroupOrderLimitText)), Arg(Number(limit)), Lit(Sql(EndText))]
  {
    BindQuery(ActiveFilters(o), limit);
  }

  lemma BindQuery(fs: seq<Filter>, limit: int)
    ensures Bind(QueryOf(fs), ParamsOf(fs, limit))
      == [Lit(Sql(SelectText))] + InlinedAll(fs)
         + [Lit(Sql(GroupOrderLimitText)), Arg(Number(limit)), Lit(Sql(EndText))]
  {
    var ps := ParamsOf(fs, limit);
    var head := [Sql(SelectText)] + Clauses(fs);
    assert |ps| == |fs| + 1 && ps[|fs|] == Number(limit);
    assert Bind(head, ps) == [Lit(Sql(SelectText))] + InlinedAll(fs) by {
      assert forall j :: 0 <= j < |fs| ==> ps[j] == FilterParam(fs[j]);
      BindAppend([Sql(SelectText)], Clauses(fs), ps);
      BindClauses(fs, ps);
    }
    assert Bind(LimitClause(|fs| + 1), ps)
      == [Lit(Sql(GroupOrderLimitText)), Arg(Number(limit)), Lit(Sql(EndText))];
    BindAppend(head, LimitClause(|fs| + 1), ps);
  }

  /** Every placeholder of the query names an entry of the parameter list. */
  lemma NoUnboundPlaceholder(o: Options, limit: int)
    ensures forall b :: b in Bind(QueryFor(o, limit), ParamsFor(o, limit)) ==> !Unbound(b)
  {
    PlaceholdersBindPushedValues(o, limit);
    InlinedAllBound(ActiveFilters(o));
  }

  // ---------------------------------------------------------------------------
  // An example: only an owner is given, and the limit is left at its default
  // ---------------------------------------------------------------------------

  /** The owner's clause starts with AND right after the JOIN, with no WHERE before it. */
  lemma OwnerOnlyQueryText()
    ensures Render(QueryFor(Options(None, Some(3), None, None, None), DefaultLimit))
      == SelectText + "AND owner_id = $1 " + (GroupOrderLimitText + ("$2" + EndText))
  {
    var head := [Sql(SelectText)];
    var clause := FilterClause(OwnerIs(3), 1);
    var tail := LimitClause(2);
    OwnerOnlyTokens();
    RenderAppend(head + clause, tail);
    RenderAppend(head, clause);
    assert Render(head) == SelectText;
    OwnerClauseText();
    LimitClauseText();
  }

  lemma OwnerClauseText()
    ensures Render(FilterClause(OwnerIs(3), 1)) == "AND owner_id = $1 "
  {
    RenderOwnerClause(3, 1);
    assert Decimal.FromInt(1) == "1";
    OwnerClauseConcat();
  }

  lemma OwnerClauseConcat()
    ensures "AND" + (" owner_id = " + ("$" + "1" + " ")) == "AND owner_id = $1 "
  {
    assert "$" + "1" + " " == "$1 ";
    assert " owner_id = " + "$1 " == " owner_id = $1 ";
  }

  lemma LimitClauseText()
    ensures Render(LimitClause(2)) == GroupOrderLimitText + ("$2" + EndText)
  {
    RenderLimitClause(2);
    assert Decimal.FromInt(2) == "2";
    assert "$" + "2" == "$2";
  }

  lemma OwnerOnlyTokens()
    ensures QueryFor(Options(None, Some(3), None, None, None), DefaultLimit)
      == [Sql(SelectText)] + FilterClause(OwnerIs(3), 1) + LimitClause(2)
  {
    var o := Options(None, Some(3), None, None, None);
    assert ActiveFilters(o) == [OwnerIs(3)];
    assert Clauses([OwnerIs(3)]) == FilterClause(OwnerIs(3), 1);
  }

  lemma RenderOwnerClause(id: int, k: nat)
    ensures Render(FilterClause(OwnerIs(id), k)) == "AND" + (" owner_id = " + ("$" + Decimal.FromInt(k) + " "))
  {
    var q := FilterClause(OwnerIs(id), k);
    assert Render(q[3..]) == " " + Render(q[4..]);
    assert Render(q[2..]) == "$" + Decimal.FromInt(k) + Render(q[3..]);
    assert Render(q[1..]) == " owner_id = " + Render(q[2..]);
  }

  /** Every query ends with the grouping, the ordering and `LIMIT $n;`. */
  lemma RenderLimitClause(n: nat)
    ensures Render(LimitClause(n)) == GroupOrderLimitText + ("$" + Decimal.FromInt(n) + EndText)
  {
    var q := LimitClause(n);
    assert Render(q[2..]) == EndText + Render(q[3..]);
    assert Render(q[1..]) == "$" + Decimal.FromInt(n) + Render(q[2..]);
  }

  /** Its parameters: the owner id as text, then the default limit 10 as a number. */
  lemma OwnerOnlyParams()
    ensures ParamsFor(Options(None, Some(3), None, None, None), DefaultLimit) == [Text("3"), Number(10)]
  {
    var o := Options(None, Some(3), None, None, None);
    assert ActiveFilters(o) == [OwnerIs(3)];
    assert Decimal.FromInt(3) == "3";
  }

  lemma {:induction false} RenderAppend(a: seq<Token>, b: seq<Token>)
    ensures Render(a + b) == Render(a) + Render(b)
    decreases |a|
  {
    if a == [] {
      assert a + b == b;
    } else {
      assert (a + b)[0] == a[0];
      assert (a + b)[1..] == a[1..] + b;
      RenderAppend(a[1..], b);
    }
  }

  // ---------------------------------------------------------------------------
  // From tokens to text: each `$` in the SQL string is one placeholder
  // ---------------------------------------------------------------------------

  /** How many times `c` occurs in `s`. */
  function CountChar(c: char, s: string): nat {
    if s == [] then 0 else (if s[0] == c then 1 else 0) + CountChar(c, s[1..])
  }

  lemma {:induction false} CountCharAppend(c: char, a: string, b: string)
    ensures CountChar(c, a + b) == CountChar(c, a) + CountChar(c, b)
    decreases |a|
  {
    if a == [] {
      assert a + b == b;
    } else {
      assert (a + b)[0] == a[0];
      assert (a + b)[1..] == a[1..] + b;
      CountCharAppend(c, a[1..], b);
    }
  }

  lemma {:induction false} CountCharAbsent(c: char, s: string)
    requires c !in s
    ensures CountChar(c, s) == 0
    decreases |s|
  {
    if s != [] {
      assert c !in s[1..] by {
        assert forall x :: x in s[1..] ==> x in s;
      }
      CountCharAbsent(c, s[1..]);
    }
  }

  /** None of the literal SQL pieces of `q` contains a `$`. */
  predicate DollarFree(q: seq<Token>) {
    forall i :: 0 <= i < |q| && q[i].Sql? ==> '$' !in q[i].text
  }

  /** The text of a single token has a `$` exactly when the token is a placeholder. */
  lemma DollarsOfToken(t: Token)
    requires t.Sql? ==> '$' !in t.text
    ensures CountChar('$', Render([t])) == if t.Placeholder? then 1 else 0
  {
    assert Render([t]) == Render([t][..1]);
    match t
    case Sql(text) =>
      assert Render([t]) == text + Render([]);
      assert Render([t]) == text;
      CountCharAbsent('$', text);
    case Where =>
      assert Render([t]) == "WHERE" + Render([]);
      assert Render([t]) == "WHERE";
      CountCharAbsent('$', "WHERE");
    case And =>
      assert Render([t]) == "AND" + Render([]);
      assert Render([t]) == "AND";
      CountCharAbsent('$', "AND");
    case Placeholder(k) =>
      var d := Decimal.FromInt(k);
      assert Render([t]) == "$" + d + Render([]);
      assert Render([t]) == "$" + d;
      assert '$' !in d;
      CountCharAbsent('$', d);
      CountCharAppend('$', "$", d);
      assert CountChar('$', "$") == 1 + CountChar('$', "$"[1..]);
      assert "$"[1..] == [];
  }

  /** When no literal piece holds a `$`, the rendered text has one `$` per placeholder. */
  lemma {:induction false} RenderDollars(q: seq<Token>)
    requires DollarFree(q)
    ensures CountChar('$', Render(q)) == |Placeholders(q)|
    decreases |q|
  {
    if q != [] {
      assert q == [q[0]] + q[1..];
      RenderAppend([q[0]], q[1..]);
      PlaceholdersAppend([q[0]], q[1..]);
      CountCharAppend('$', Render([q[0]]), Render(q[1..]));
      DollarsOfToken(q[0]);
      RenderDollars(q[1..]);
    }
  }

  lemma DollarsAppend(a: seq<Token>, b: seq<Token>)
    ensures CountChar('$', Render(a + b)) == CountChar('$', Render(a)) + CountChar('$', Render(b))
  {
    RenderAppend(a, b);
    CountCharAppend('$', Render(a), Render(b));
  }

  lemma DollarsOfClause(f: Filter, k: nat)
    ensures CountChar('$', Render(FilterClause(f, k))) == 1
  {
    ClauseDollarFree(f, k);
    RenderDollars(FilterClause(f, k));
    PlaceholdersOfClause(f, k);
  }

  lemma ClauseDollarFree(f: Filter, k: nat)
    ensures DollarFree(FilterClause(f, k))
  {
    NoDollarInClauseText();
  }

  /** The literal pieces of the five conditions contain no `$`. */
  lemma NoDollarInClauseText()
    ensures '$' !in " " && '$' !in " city LIKE " && '$' !in " owner_id = "
    ensures '$' !in " cost_per_night > " && '$' !in " cost_per_night < "
    ensures '$' !in " property_reviews.rating >= "
  {
  }

  /** The fixed pieces of the query text contain no `$`. */
  lemma NoDollarInFixedText()
    ensures '$' !in SelectText && '$' !in GroupOrderLimitText && '$' !in EndText
  {
    NoDollarInSelect();
    assert '$' !in "\n  GROUP BY properties.id";
    assert '$' !in "\n  ORDER BY cost_per_night";
    assert '$' !in "\n  LIMIT ";
  }

  lemma NoDollarInSelect()
    ensures '$' !in SelectText
  {
    NoDollarInSelectStart();
    NoDollarInSelectEnd();
  }

  lemma NoDollarInSelectStart()
    ensures '$' !in "\n  SELECT properties.*, " && '$' !in "avg(property_reviews.rating) "
    ensures '$' !in "as average_rating\n  "
  {
  }

  lemma NoDollarInSelectEnd()
    ensures '$' !in "FROM properties\n  " && '$' !in "JOIN property_reviews "
    ensures '$' !in "ON properties.id = " && '$' !in "property_id\n  "
  {
  }

  /** The only `$` of the tail is its placeholder for the limit. */
  lemma DollarsOfTail(n: nat)
    ensures CountChar('$', Render(LimitClause(n))) == 1
  {
    NoDollarInFixedText();
    var g, p, e := Sql(GroupOrderLimitText), Placeholder(n), Sql(EndText);
    assert LimitClause(n) == [g] + [p] + [e];
    DollarsAppend([g] + [p], [e]);
    DollarsAppend([g], [p]);
    DollarsOfToken(g);
    DollarsOfToken(p);
    DollarsOfToken(e);
  }

  lemma {:induction false} DollarsOfClauses(fs: seq<Filter>)
    ensures CountChar('$', Render(Clauses(fs))) == |fs|
    decreases |fs|
  {
    if fs != [] {
      var n := |fs|;
      DollarsOfClauses(fs[..n - 1]);
      DollarsAppend(Clauses(fs[..n - 1]), FilterClause(fs[n - 1], n));
      DollarsOfClause(fs[n - 1], n);
    }
  }

  lemma DollarsOfQuery(fs: seq<Filter>, limit: int)
    ensures CountChar('$', Render(QueryOf(fs))) == |ParamsOf(fs, limit)|
  {
    var head := [Sql(SelectText)];
    DollarsAppend(head + Clauses(fs), LimitClause(|fs| + 1));
    DollarsAppend(head, Clauses(fs));
    DollarsOfClauses(fs);
    NoDollarInFixedText();
    DollarsOfToken(Sql(SelectText));
    DollarsOfTail(|fs| + 1);
  }

  /**
   * The SQL string handed to the database has exactly as many `$` signs as there
   * are parameters: every `$` is the start of a placeholder, since no literal
   * piece of the query contains one.
   */
  lemma QueryDollarsMatchParams(o: Options, limit: int)
    ensures CountChar('$', Render(QueryFor(o, limit))) == |ParamsFor(o, limit)|
  {
    DollarsOfQuery(ActiveFilters(o), limit);
  }
}
