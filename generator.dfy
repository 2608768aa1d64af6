/** `SQLGenerator.generate_sql`: the sales patterns are tried first; failing those the table
    resolver picks a table, the language model is asked when no table is found but some
    exist, and otherwise the table's template bank answers. */
module SqlGenerator {
  import opened Text
  import SalesPatterns
  import TableResolver
  import QueryClassifier
  import LlmFallback

  /** Which of the three paths a request takes. */
  datatype Route =
    | PatternRoute(handler: SalesPatterns.Handler)
    | ModelRoute
    | TableRoute(table: Option<string>)

  function RouteOf(query: string, available: seq<string>): Route {
    match SalesPatterns.FirstMatch(Lower(query))
    case Some(h) => PatternRoute(h)
    case None =>
      var t := TableResolver.TargetTable(query, available);
      if t.None? && |available| > 0 then ModelRoute else TableRoute(t)
  }

  /** The SQL of a request; `answer` is the language model's reply, `None` when the call fails. */
  function GeneratedSql(query: string, available: seq<string>, answer: Option<string>): string {
    match RouteOf(query, available)
    case PatternRoute(h) => SalesPatterns.SalesSql(h, Lower(query), available)
    case ModelRoute => LlmFallback.LlmSql(answer)
    case TableRoute(t) => QueryClassifier.SqlForTable(query, t, available)
  }

  /** `generate_sql`. A handler's text is never empty (`SalesSqlNonEmpty`), so its
      `if sql_query:` always returns at the first matching pattern. */
  method GenerateSql(query: string, available: seq<string>, answer: Option<string>) returns (r: string)
    ensures r == GeneratedSql(query, available, answer)
  {
    var q := Lower(query);
    var h := SalesPatterns.FindHandler(q);
    if h.Some? {
      return SalesPatterns.SalesSql(h.value, q, available);
    }
    var t := TableResolver.DetermineTargetTable(query, available);
    if t.None? && |available| > 0 {
      if answer.None? {
        return LlmFallback.LlmErrorSql;
      }
      r := LlmFallback.ExtractSql(Strip(answer.value));
      return;
    }
    r := QueryClassifier.SqlForTable(query, t, available);
  }

  // ---------------------------------------------------------------------------
  // Properties
  // ---------------------------------------------------------------------------

  /** A matching sales pattern decides the answer alone: neither the resolver, the template
      bank nor the model is consulted. */
  lemma PatternShortCircuit(query: string, available: seq<string>, a: Option<string>, b: Option<string>)
    requires SalesPatterns.FirstMatch(Lower(query)).Some?
    ensures GeneratedSql(query, available, a) == GeneratedSql(query, available, b)
    ensures GeneratedSql(query, available, a)
      == SalesPatterns.SalesSql(SalesPatterns.FirstMatch(Lower(query)).value, Lower(query), available)
  {
  }

  /** The model is asked exactly when no pattern matches, some table exists, and no available
      table scores. */
  lemma ModelRouteIff(query: string, available: seq<string>)
    ensures RouteOf(query, available) == ModelRoute <==>
      SalesPatterns.FirstMatch(Lower(query)).None? && |available| > 0
      && forall j :: 0 <= j < |TableResolver.TableRules| && TableResolver.Candidate(j, available)
           ==> TableResolver.Score(TableResolver.TableRules[j], Lower(query)) == 0
  {
    TableResolver.TargetNoneIff(query, available);
  }

  /** A table the bank path uses is one of the available ones. */
  lemma TableRouteAvailable(query: string, available: seq<string>)
    requires RouteOf(query, available).TableRoute? && RouteOf(query, available).table.Some?
    ensures RouteOf(query, available).table.value in available
  {
  }

  /** Without any table, the answer is the handlers' missing-table SELECT or the plain SELECT
      from `None`. */
  lemma NoTablesAnswer(query: string, answer: Option<string>)
    ensures GeneratedSql(query, [], answer) == SalesPatterns.MissingProductionSql
         || GeneratedSql(query, [], answer) == "SELECT * FROM None LIMIT 10;"
  {
    match RouteOf(query, [])
    case PatternRoute(h) =>
      SalesPatterns.SalesSqlWithoutProduction(h, Lower(query), []);
    case ModelRoute =>
    case TableRoute(t) =>
      QueryClassifier.NoBankQuery(query, t, []);
  }

  /** Pattern answers end with `;` and indentation unless production is missing; bank answers
      end with `;`; the model path is the only one that may yield something else. */
  lemma GeneratedTerminated(query: string, available: seq<string>, answer: Option<string>)
    ensures RouteOf(query, available).PatternRoute? ==>
      (EndsWith(GeneratedSql(query, available, answer), ";\n        ")
       || GeneratedSql(query, available, answer) == SalesPatterns.MissingProductionSql)
    ensures RouteOf(query, available).TableRoute? ==> EndsWith(GeneratedSql(query, available, answer), ";")
  {
    match RouteOf(query, available)
    case PatternRoute(h) =>
      SalesPatterns.SalesSqlTerminated(h, Lower(query), available);
    case ModelRoute =>
    case TableRoute(t) =>
  }

  /** When the model is asked and fails, the answer is the error SELECT. */
  lemma ModelFailure(query: string, available: seq<string>)
    requires RouteOf(query, available) == ModelRoute
    ensures GeneratedSql(query, available, None) == LlmFallback.LlmErrorSql
  {
  }
}
