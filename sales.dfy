/** The temporal-sales pattern library of the rule-based SQL synthesiser: thirteen
    search patterns tried in declaration order, each bound to one of four handlers
    that emit a fixed aggregation query over the `production` table. */
module SalesPatterns {
  import opened Text
  import opened DateNormalizer

  // ---------------------------------------------------------------------------
  // Patterns
  // ---------------------------------------------------------------------------

  datatype Handler = Dynamics | Monthly | Weekly | Daily

  /** The two regular-expression shapes the library uses: a plain literal, or
      `head[lo-hi]*tail`.  A trailing `[а-я]*` may match nothing, so
      `месячн[а-я]* продаж[а-я]*` is searched for exactly like `месячн[а-я]* продаж`. */
  datatype Pattern =
    | Literal(text: string)
    | Run(head: string, lo: char, hi: char, tail: string)

  datatype SalesPattern = SalesPattern(pattern: Pattern, handler: Handler)

  /** Declaration order of `special_patterns`; the character class `[а-я]` is
      U+0430..U+044F (so it excludes `ё`), `[е-я]` is U+0435..U+044F. */
  const Patterns: seq<SalesPattern> := [
    SalesPattern(Run("динамик", 'а', 'я', " продаж"), Dynamics),
    SalesPattern(Run("тренд", 'а', 'я', " продаж"), Dynamics),
    SalesPattern(Run("изменени", 'е', 'я', " продаж"), Dynamics),
    SalesPattern(Literal("продажи за последний год"), Dynamics),
    SalesPattern(Literal("продажи за год"), Dynamics),
    SalesPattern(Run("месячн", 'а', 'я', " продаж"), Monthly),
    SalesPattern(Run("еженедельн", 'а', 'я', " продаж"), Weekly),
    SalesPattern(Run("дневн", 'а', 'я', " продаж"), Daily),
    SalesPattern(Literal("продажи по месяцам"), Monthly),
    SalesPattern(Literal("продажи по неделям"), Weekly),
    SalesPattern(Literal("продажи по дням"), Daily),
    SalesPattern(Literal("график продаж"), Dynamics),
    SalesPattern(Literal("выручка за период"), Dynamics)
  ]

  /** From position `j`, zero or more characters of the class, then `tail`. */
  predicate RunTail(s: string, lo: char, hi: char, tail: string, j: nat)
    requires j <= |s|
    decreases |s| - j
  {
    (j + |tail| <= |s| && MatchAt(s, tail, j, 0))
    || (j < |s| && lo <= s[j] <= hi && RunTail(s, lo, hi, tail, j + 1))
  }

  /** `re.search` of `head[lo-hi]*tail` starting at some position `>= i`. */
  predicate RunFrom(s: string, head: string, lo: char, hi: char, tail: string, i: nat)
    requires i <= |s|
    decreases |s| - i
  {
    (i + |head| <= |s| && MatchAt(s, head, i, 0) && RunTail(s, lo, hi, tail, i + |head|))
    || (i < |s| && RunFrom(s, head, lo, hi, tail, i + 1))
  }

  /** `re.search(pattern, s) is not None`. */
  predicate Matches(p: Pattern, s: string) {
    match p
    case Literal(t) => Contains(s, t)
    case Run(head, lo, hi, tail) => RunFrom(s, head, lo, hi, tail, 0)
  }

  // Positional meaning of the patterns -----------------------------------------

  ghost predicate ClassRun(s: string, lo: char, hi: char, a: int, b: int) {
    0 <= a <= b <= |s| && forall k :: a <= k < b ==> lo <= s[k] <= hi
  }

  /** `head` at `a`, class characters up to `e`, `tail` at `e`. */
  ghost predicate RunAt(s: string, head: string, lo: char, hi: char, tail: string, a: int, e: int) {
    OccursAt(s, head, a) && ClassRun(s, lo, hi, a + |head|, e) && OccursAt(s, tail, e)
  }

  /** What a regular-expression engine means by a match of the pattern. */
  ghost predicate RegexMatch(p: Pattern, s: string) {
    match p
    case Literal(t) => exists k :: OccursAt(s, t, k)
    case Run(head, lo, hi, tail) => exists a, e :: RunAt(s, head, lo, hi, tail, a, e)
  }

  lemma {:induction false} RunTailMeaning(s: string, lo: char, hi: char, tail: string, j: nat)
    requires j <= |s|
    ensures RunTail(s, lo, hi, tail, j) <==> exists e :: ClassRun(s, lo, hi, j, e) && OccursAt(s, tail, e)
    decreases |s| - j
  {
    if j + |tail| <= |s| {
      MatchAtMeaning(s, tail, j, 0);
      assert tail[0..] == tail;
    }
    assert ClassRun(s, lo, hi, j, j);
    if j < |s| {
      RunTailMeaning(s, lo, hi, tail, j + 1);
      if RunTail(s, lo, hi, tail, j) && !(j + |tail| <= |s| && MatchAt(s, tail, j, 0)) {
        var e :| ClassRun(s, lo, hi, j + 1, e) && OccursAt(s, tail, e);
        assert ClassRun(s, lo, hi, j, e);
      }
      if exists e :: ClassRun(s, lo, hi, j, e) && OccursAt(s, tail, e) {
        var e :| ClassRun(s, lo, hi, j, e) && OccursAt(s, tail, e);
        if e > j {
          assert ClassRun(s, lo, hi, j + 1, e);
        }
      }
    }
  }

  lemma {:induction false} RunFromMeaning(s: string, head: string, lo: char, hi: char, tail: string, i: nat)
    requires i <= |s|
    ensures RunFrom(s, head, lo, hi, tail, i) <==> exists a, e :: i <= a && RunAt(s, head, lo, hi, tail, a, e)
    decreases |s| - i
  {
    var here := i + |head| <= |s| && MatchAt(s, head, i, 0) && RunTail(s, lo, hi, tail, i + |head|);
    if i + |head| <= |s| {
      MatchAtMeaning(s, head, i, 0);
      assert head[0..] == head;
      RunTailMeaning(s, lo, hi, tail, i + |head|);
    }
    if i < |s| {
      RunFromMeaning(s, head, lo, hi, tail, i + 1);
    }
    if here {
      var e :| ClassRun(s, lo, hi, i + |head|, e) && OccursAt(s, tail, e);
      assert RunAt(s, head, lo, hi, tail, i, e);
    }
    if exists a, e :: i <= a && RunAt(s, head, lo, hi, tail, a, e) {
      var a, e :| i <= a && RunAt(s, head, lo, hi, tail, a, e);
      if a == i {
        assert here;
      } else {
        assert i + 1 <= a && RunAt(s, head, lo, hi, tail, a, e);
        assert RunFrom(s, head, lo, hi, tail, i + 1);
      }
    }
  }

  /** The hand-written matcher agrees with the regular-expression meaning. */
  lemma MatchesMeaning(p: Pattern, s: string)
    ensures Matches(p, s) <==> RegexMatch(p, s)
  {
    match p
    case Literal(t) => ContainsMeaning(s, t);
    case Run(head, lo, hi, tail) => RunFromMeaning(s, head, lo, hi, tail, 0);
  }

  function Anchor(p: Pattern): string {
    match p
    case Literal(t) => t
    case Run(head, _, _, _) => head
  }

  /** A text that matches a pattern contains its literal part. */
  lemma MatchesAnchor(p: Pattern, s: string)
    ensures Matches(p, s) ==> Contains(s, Anchor(p))
  {
    MatchesMeaning(p, s);
    if Matches(p, s) && p.Run? {
      var a, e :| RunAt(s, p.head, p.lo, p.hi, p.tail, a, e);
      ContainsWitness(s, p.head, a);
    }
  }

  // First match ------------------------------------------------------------------

  /** Handler of the first pattern, from index `k` on, that matches. */
  function FirstMatchFrom(s: string, k: nat): Option<Handler>
    requires k <= |Patterns|
    decreases |Patterns| - k
  {
    if k == |Patterns| then None
    else if Matches(Patterns[k].pattern, s) then Some(Patterns[k].handler)
    else FirstMatchFrom(s, k + 1)
  }

  function FirstMatch(s: string): Option<Handler> {
    FirstMatchFrom(s, 0)
  }

  /** The loop of `generate_sql` over the patterns, leaving at the first match. */
  method FindHandler(s: string) returns (r: Option<Handler>)
    ensures r == FirstMatch(s)
  {
    var k := 0;
    while k < |Patterns|
      invariant 0 <= k <= |Patterns|
      invariant FirstMatchFrom(s, k) == FirstMatch(s)
    {
      if Matches(Patterns[k].pattern, s) {
        return Some(Patterns[k].handler);
      }
      k := k + 1;
    }
    return None;
  }

  lemma {:induction false} FirstMatchFromMeaning(s: string, k: nat, h: Handler)
    requires k <= |Patterns|
    ensures FirstMatchFrom(s, k) == Some(h) <==>
      exists m :: k <= m < |Patterns| && Matches(Patterns[m].pattern, s) && Patterns[m].handler == h &&
        forall j :: k <= j < m ==> !Matches(Patterns[j].pattern, s)
    decreases |Patterns| - k
  {
    if k < |Patterns| {
      FirstMatchFromMeaning(s, k + 1, h);
      if !Matches(Patterns[k].pattern, s) && FirstMatchFrom(s, k) != Some(h) {
        // any witness at m >= k must be past k, and would then witness the tail
        forall m | k <= m < |Patterns| && Matches(Patterns[m].pattern, s) && Patterns[m].handler == h
          ensures exists j :: k <= j < m && Matches(Patterns[j].pattern, s)
        {
          assert m != k;
          assert !(forall j :: k + 1 <= j < m ==> !Matches(Patterns[j].pattern, s));
        }
      }
    }
  }

  /** The handler chosen is that of the earliest matching pattern: every pattern
      declared before it fails to match. */
  lemma FirstMatchMeaning(s: string, h: Handler)
    ensures FirstMatch(s) == Some(h) <==>
      exists m :: 0 <= m < |Patterns| && Matches(Patterns[m].pattern, s) && Patterns[m].handler == h &&
        forall j :: 0 <= j < m ==> !Matches(Patterns[j].pattern, s)
  {
    FirstMatchFromMeaning(s, 0, h);
  }

  lemma {:induction false} NoMatchFrom(s: string, k: nat)
    requires k <= |Patterns|
    ensures FirstMatchFrom(s, k) == None <==> forall j :: k <= j < |Patterns| ==> !Matches(Patterns[j].pattern, s)
    decreases |Patterns| - k
  {
    if k < |Patterns| {
      NoMatchFrom(s, k + 1);
    }
  }

  /** No handler is chosen exactly when no pattern matches. */
  lemma NoMatchMeaning(s: string)
    ensures FirstMatch(s) == None <==> forall j :: 0 <= j < |Patterns| ==> !Matches(Patterns[j].pattern, s)
  {
    NoMatchFrom(s, 0);
  }

  // ---------------------------------------------------------------------------
  // Handlers
  // ---------------------------------------------------------------------------

  datatype Bucket = MonthBucket | WeekBucket | DayBucket

  /** What a handler's query does, independent of its column list. */
  datatype SalesPlan = SalesPlan(bucket: Bucket, descending: bool, limit: nat, skipsPlaceholderMonth: bool)

  /** `days` of the daily handler: a week when asked for the last week, else thirty days. */
  function DailyWindow(q: string): nat {
    if Contains(q, "последнюю неделю") then 7
    else if Contains(q, "последний месяц") then 30
    else 30
  }

  function Plan(h: Handler, q: string): SalesPlan {
    match h
    case Dynamics => SalesPlan(MonthBucket, false, 24, true)
    case Monthly => SalesPlan(MonthBucket, false, 12, false)
    case Weekly => SalesPlan(WeekBucket, false, 20, false)
    case Daily => SalesPlan(DayBucket, true, DailyWindow(q), false)
  }

  const MissingProductionSql := "SELECT 'Таблица production не найдена' as error;"

  const Head := "\n        WITH cleaned_dates AS (\n            SELECT \n"
  /** The text of the CASE expression that `CleanDate` models. */
  const CleanDateCase := "                CASE \n"
      + "                    WHEN date LIKE '____-__-__%' THEN substr(date, 1, 10)\n"
      + "                    WHEN date LIKE '__.__.____%' THEN \n"
      + "                        substr(date, 7, 4) || '-' || \n"
      + "                        substr(date, 4, 2) || '-' || \n"
      + "                        substr(date, 1, 2)\n"
      + "                    ELSE substr(date, 1, 10)\n"
      + "                END as clean_date,\n"
  const FromProduction := "            FROM production\n"
      + "            WHERE revenue IS NOT NULL \n"
      + "                "
  const PositiveRevenue := "AND revenue > 0"
  const CloseCleaned := "\n        )"
  /** The re-filter `StrictIso` models. */
  const StrictFilter := "WHERE clean_date LIKE '____-__-__'"
  const PlaceholderExclusion := "AND month != '1900-01'"
  const Indent := "\n        "

  function Columns(h: Handler): string {
    match h
    case Dynamics => (
        "                revenue,\n"
        + "                quantity,\n"
        + "                product_name,\n"
        + "                department\n")
    case Monthly => "                revenue,\n                product_name\n"
    case Weekly => "                revenue,\n                product_name\n"
    case Daily => (
        "                revenue,\n"
        + "                product_name,\n"
        + "                quantity\n")
  }

  function Middle(h: Handler): string {
    match h
    case Dynamics => (
        ",\n"
        + "        monthly_aggregation AS (\n"
        + "            SELECT \n"
        + "                substr(clean_date, 1, 7) as month,\n"
        + "                SUM(revenue) as total_revenue,\n"
        + "                SUM(quantity) as total_quantity,\n"
        + "                COUNT(*) as transaction_count,\n"
        + "                COUNT(DISTINCT product_name) as unique_products\n"
        + "            FROM cleaned_dates\n"
        + "            ")
    case Monthly => (
        "\n"
        + "        SELECT \n"
        + "            substr(clean_date, 1, 7) as month,\n"
        + "            SUM(revenue) as total_revenue,\n"
        + "            COUNT(*) as transaction_count,\n"
        + "            COUNT(DISTINCT product_name) as unique_products\n"
        + "        FROM cleaned_dates\n"
        + "        ")
    case Weekly => (
        ",\n"
        + "        valid_dates AS (\n"
        + "            SELECT *\n"
        + "            FROM cleaned_dates\n"
        + "            ")
    case Daily => (
        ",\n"
        + "        valid_dates AS (\n"
        + "            SELECT *\n"
        + "            FROM cleaned_dates\n"
        + "            ")
  }

  function BeforeGroup(h: Handler): string {
    match h
    case Dynamics => "\n            "
    case Monthly => "\n        "
    case Weekly => (
        "\n"
        + "        )\n"
        + "        SELECT \n"
        + "            strftime('%Y-%W', clean_date) as week,\n"
        + "            MIN(clean_date) as week_start,\n"
        + "            SUM(revenue) as total_revenue,\n"
        + "            COUNT(*) as transaction_count\n"
        + "        FROM valid_dates\n"
        + "        ")
    case Daily => (
        "\n"
        + "        )\n"
        + "        SELECT \n"
        + "            clean_date as day,\n"
        + "            SUM(revenue) as daily_revenue,\n"
        + "            SUM(quantity) as daily_quantity,\n"
        + "            COUNT(*) as transaction_count,\n"
        + "            COUNT(DISTINCT product_name) as unique_products\n"
        + "        FROM valid_dates\n"
        + "        ")
  }

  function AfterGroup(h: Handler): string {
    match h
    case Dynamics => (
        "\n"
        + "            HAVING COUNT(*) > 0\n"
        + "        )\n"
        + "        SELECT \n"
        + "            month,\n"
        + "            COALESCE(total_revenue, 0) as total_revenue,\n"
        + "            COALESCE(total_quantity, 0) as total_quantity,\n"
        + "            transaction_count,\n"
        + "            unique_products,\n"
        + "            CASE \n"
        + "                WHEN total_revenue > 0 THEN '📈 Данные есть'\n"
        + "                ELSE '📊 Нет выручки'\n"
        + "            END as status\n"
        + "        FROM monthly_aggregation\n"
        + "        WHERE month IS NOT NULL \n"
        + "            ")
    case _ => "\n        HAVING COUNT(*) > 0\n        "
  }

  function BucketExpr(b: Bucket): string {
    match b
    case MonthBucket => "substr(clean_date, 1, 7)"
    case WeekBucket => "strftime('%Y-%W', clean_date)"
    case DayBucket => "clean_date"
  }

  function OrderKey(b: Bucket): string {
    match b
    case MonthBucket => "month"
    case WeekBucket => "week_start"
    case DayBucket => "day"
  }

  function GroupClause(p: SalesPlan): string {
    "GROUP BY " + BucketExpr(p.bucket)
  }

  function OrderClause(p: SalesPlan): string {
    "ORDER BY " + OrderKey(p.bucket) + (if p.descending then " DESC" else "")
  }

  function LimitClause(p: SalesPlan): string {
    "LIMIT " + NatText(p.limit) + ";\n        "
  }

  function Piece(h: Handler, p: SalesPlan, i: int): string {
    if i == 0 then Head
    else if i == 1 then CleanDateCase
    else if i == 2 then Columns(h)
    else if i == 3 then FromProduction
    else if i == 4 then PositiveRevenue
    else if i == 5 then CloseCleaned
    else if i == 6 then Middle(h)
    else if i == 7 then StrictFilter
    else if i == 8 then BeforeGroup(h)
    else if i == 9 then GroupClause(p)
    else if i == 10 then AfterGroup(h)
    else if i == 11 then (if p.skipsPlaceholderMonth then PlaceholderExclusion else "")
    else if i == 12 then (if p.skipsPlaceholderMonth then Indent else "")
    else if i == 13 then OrderClause(p)
    else if i == 14 then Indent
    else LimitClause(p)
  }

  function Pieces(h: Handler, p: SalesPlan): seq<string> {
    seq(16, i => Piece(h, p, i))
  }

  /** The query text a handler returns; `q` is the lowercased request. */
  function SalesSql(h: Handler, q: string, available: seq<string>): string {
    if "production" !in available then MissingProductionSql
    else Concat(Pieces(h, Plan(h, q)))
  }

  /** The clauses a handler's assembled text is guaranteed to contain. */
  lemma PiecesShape(ps: seq<string>)
    requires |ps| == 16
    ensures Contains(Concat(ps), ps[1]) && Contains(Concat(ps), ps[4]) && Contains(Concat(ps), ps[7])
    ensures Contains(Concat(ps), ps[9]) && Contains(Concat(ps), ps[11]) && Contains(Concat(ps), ps[13])
    ensures EndsWith(Concat(ps), ps[15])
  {
    ConcatContainsPart(ps, 1);
    ConcatContainsPart(ps, 4);
    ConcatContainsPart(ps, 7);
    ConcatContainsPart(ps, 9);
    ConcatContainsPart(ps, 11);
    ConcatContainsPart(ps, 13);
    ConcatEndsWithLast(ps);
  }

  /** Every handler answers with the error SELECT when `production` is not available. */
  lemma SalesSqlWithoutProduction(h: Handler, q: string, available: seq<string>)
    requires "production" !in available
    ensures SalesSql(h, q, available) == MissingProductionSql
  {
  }

  /** With `production` available, a handler's query holds the date-normalising CASE. */
  lemma SalesSqlNormalises(h: Handler, q: string, available: seq<string>)
    requires "production" in available
    ensures Contains(SalesSql(h, q, available), CleanDateCase)
  {
    ConcatContainsPart(Pieces(h, Plan(h, q)), 1);
  }

  /** With `production` available, a handler's query holds the positive-revenue filter. */
  lemma SalesSqlPositiveOnly(h: Handler, q: string, available: seq<string>)
    requires "production" in available
    ensures Contains(SalesSql(h, q, available), PositiveRevenue)
  {
    ConcatContainsPart(Pieces(h, Plan(h, q)), 4);
  }

  /** With `production` available, a handler's query holds the strict ISO re-filter. */
  lemma SalesSqlStrictDates(h: Handler, q: string, available: seq<string>)
    requires "production" in available
    ensures Contains(SalesSql(h, q, available), StrictFilter)
  {
    ConcatContainsPart(Pieces(h, Plan(h, q)), 7);
  }

  /** With `production` available, a handler's query holds its bucket grouping. */
  lemma SalesSqlGroups(h: Handler, q: string, available: seq<string>)
    requires "production" in available
    ensures Contains(SalesSql(h, q, available), GroupClause(Plan(h, q)))
  {
    ConcatContainsPart(Pieces(h, Plan(h, q)), 9);
  }

  /** With `production` available, a handler's query holds its ordering. */
  lemma SalesSqlOrders(h: Handler, q: string, available: seq<string>)
    requires "production" in available
    ensures Contains(SalesSql(h, q, available), OrderClause(Plan(h, q)))
  {
    ConcatContainsPart(Pieces(h, Plan(h, q)), 13);
  }

  /** With `production` available, a handler's query holds its limit, last. */
  lemma SalesSqlLimits(h: Handler, q: string, available: seq<string>)
    requires "production" in available
    ensures EndsWith(SalesSql(h, q, available), LimitClause(Plan(h, q)))
  {
    ConcatEndsWithLast(Pieces(h, Plan(h, q)));
  }

  /** The dynamics handler leaves out the placeholder month `1900-01`. */
  lemma SalesSqlSkipsPlaceholder(h: Handler, q: string, available: seq<string>)
    requires "production" in available && Plan(h, q).skipsPlaceholderMonth
    ensures Contains(SalesSql(h, q, available), PlaceholderExclusion)
  {
    ConcatContainsPart(Pieces(h, Plan(h, q)), 11);
  }

  /** Every handler's text ends in `;` followed by the literal's indentation. */
  lemma SalesSqlTerminated(h: Handler, q: string, available: seq<string>)
    ensures EndsWith(SalesSql(h, q, available), ";\n        ") || SalesSql(h, q, available) == MissingProductionSql
  {
    if "production" in available {
      SalesSqlLimits(h, q, available);
      EndsWithOfSuffix(SalesSql(h, q, available), "LIMIT " + NatText(Plan(h, q).limit), ";\n        ");
    }
  }

  /** A handler never returns an empty text, so `generate_sql` always returns it. */
  lemma SalesSqlNonEmpty(h: Handler, q: string, available: seq<string>)
    ensures |SalesSql(h, q, available)| > 0
  {
    if "production" in available {
      SalesSqlLimits(h, q, available);
    }
  }

  /** The dynamics query buckets rows by the `YYYY-MM` prefix of the cleaned date. */
  lemma DynamicsGroupsByMonth(q: string, available: seq<string>)
    requires "production" in available
    ensures Contains(SalesSql(Dynamics, q, available), "GROUP BY " + "substr(clean_date, 1, 7)")
  {
    SalesSqlGroups(Dynamics, q, available);
  }

  /** The dynamics query lists months in ascending order. */
  lemma DynamicsOrdersByMonth(q: string, available: seq<string>)
    requires "production" in available
    ensures Contains(SalesSql(Dynamics, q, available), "ORDER BY month")
  {
    SalesSqlOrders(Dynamics, q, available);
    assert OrderClause(Plan(Dynamics, q)) == "ORDER BY month";
  }

  /** The dynamics query returns at most 24 months. */
  lemma DynamicsLimit(q: string, available: seq<string>)
    requires "production" in available
    ensures EndsWith(SalesSql(Dynamics, q, available), "LIMIT 24;\n        ")
  {
    SalesSqlLimits(Dynamics, q, available);
    assert NatText(24) == "24";
    assert LimitClause(Plan(Dynamics, q)) == "LIMIT 24;\n        ";
  }

  /** The dynamics query drops the placeholder month `1900-01`. */
  lemma DynamicsSkipsPlaceholder(q: string, available: seq<string>)
    requires "production" in available
    ensures Contains(SalesSql(Dynamics, q, available), "AND month != '1900-01'")
  {
    SalesSqlSkipsPlaceholder(Dynamics, q, available);
  }

  /** The monthly query lists months in ascending order. */
  lemma MonthlyOrdersByMonth(q: string, available: seq<string>)
    requires "production" in available
    ensures Contains(SalesSql(Monthly, q, available), "ORDER BY month")
  {
    SalesSqlOrders(Monthly, q, available);
    assert OrderClause(Plan(Monthly, q)) == "ORDER BY month";
  }

  /** The monthly query returns at most 12 months. */
  lemma MonthlyLimit(q: string, available: seq<string>)
    requires "production" in available
    ensures EndsWith(SalesSql(Monthly, q, available), "LIMIT 12;\n        ")
  {
    SalesSqlLimits(Monthly, q, available);
    assert NatText(12) == "12";
    assert LimitClause(Plan(Monthly, q)) == "LIMIT 12;\n        ";
  }

  /** The weekly query buckets rows by `%Y-%W` week number. */
  lemma WeeklyGroupsByWeek(q: string, available: seq<string>)
    requires "production" in available
    ensures Contains(SalesSql(Weekly, q, available), "GROUP BY " + "strftime('%Y-%W', clean_date)")
  {
    SalesSqlGroups(Weekly, q, available);
  }

  /** The weekly query orders weeks by their first day. */
  lemma WeeklyOrdersByWeekStart(q: string, available: seq<string>)
    requires "production" in available
    ensures Contains(SalesSql(Weekly, q, available), "ORDER BY week_start")
  {
    SalesSqlOrders(Weekly, q, available);
    assert OrderClause(Plan(Weekly, q)) == "ORDER BY week_start";
  }

  /** The weekly query returns at most 20 weeks. */
  lemma WeeklyLimit(q: string, available: seq<string>)
    requires "production" in available
    ensures EndsWith(SalesSql(Weekly, q, available), "LIMIT 20;\n        ")
  {
    SalesSqlLimits(Weekly, q, available);
    assert NatText(20) == "20";
    assert LimitClause(Plan(Weekly, q)) == "LIMIT 20;\n        ";
  }

  /** The daily query buckets rows by the cleaned date itself. */
  lemma DailyGroupsByDay(q: string, available: seq<string>)
    requires "production" in available
    ensures Contains(SalesSql(Daily, q, available), "GROUP BY clean_date")
  {
    SalesSqlGroups(Daily, q, available);
    assert GroupClause(Plan(Daily, q)) == "GROUP BY clean_date";
  }

  /** The daily query lists days newest first. */
  lemma DailyNewestFirst(q: string, available: seq<string>)
    requires "production" in available
    ensures Contains(SalesSql(Daily, q, available), "ORDER BY day DESC")
  {
    SalesSqlOrders(Daily, q, available);
    assert OrderClause(Plan(Daily, q)) == "ORDER BY day DESC";
  }

  /** Asked for the last week, the daily query returns seven days. */
  lemma DailyLastWeekLimit(q: string, available: seq<string>)
    requires "production" in available && Contains(q, "последнюю неделю")
    ensures EndsWith(SalesSql(Daily, q, available), "LIMIT 7;\n        ")
  {
    SalesSqlLimits(Daily, q, available);
    assert NatText(7) == "7";
    assert LimitClause(Plan(Daily, q)) == "LIMIT 7;\n        ";
  }

  /** Otherwise (including for the last month) the daily query returns thirty days. */
  lemma DailyDefaultLimit(q: string, available: seq<string>)
    requires "production" in available && !Contains(q, "последнюю неделю")
    ensures EndsWith(SalesSql(Daily, q, available), "LIMIT 30;\n        ")
  {
    SalesSqlLimits(Daily, q, available);
    assert NatText(30) == "30";
    assert LimitClause(Plan(Daily, q)) == "LIMIT 30;\n        ";
  }

  // ---------------------------------------------------------------------------
  // Worked examples of the first-match rule
  // ---------------------------------------------------------------------------

  /** Patterns whose literal part has a character the text lacks cannot match it. */
  lemma AnchorsAbsent(s: string, n: nat, cs: seq<char>)
    requires n <= |Patterns| && |cs| == n
    requires forall j :: 0 <= j < n ==> cs[j] in Anchor(Patterns[j].pattern) && cs[j] !in s
    ensures forall j :: 0 <= j < n ==> !Matches(Patterns[j].pattern, s)
  {
    forall j | 0 <= j < n ensures !Matches(Patterns[j].pattern, s) {
      MatchesAnchor(Patterns[j].pattern, s);
      NotContainsByChar(s, Anchor(Patterns[j].pattern), cs[j]);
    }
  }

  /** A pattern that matches after a run of patterns that do not decides the handler. */
  lemma FirstMatchAt(s: string, m: nat)
    requires m < |Patterns| && Matches(Patterns[m].pattern, s)
    requires forall j :: 0 <= j < m ==> !Matches(Patterns[j].pattern, s)
    ensures FirstMatch(s) == Some(Patterns[m].handler)
  {
    FirstMatchMeaning(s, Patterns[m].handler);
  }

  lemma DailyWordMatchesDaily(a: string, b: string, c: string)
    requires a == "ежедневные" && b == " продажи" && c == " по месяцам"
    ensures Matches(Patterns[7].pattern, a + (b + c))
  {
    var s := a + (b + c);
    assert a[3..8] == "дневн" && b[0..7] == " продаж";
    OccursInLeft(a, b + c, "дневн", 3);
    OccursInLeft(b, c, " продаж", 0);
    OccursInRight(a, b + c, " продаж", 0);
    assert s[8] == a[8] && s[9] == a[9];
    assert RunAt(s, "дневн", 'а', 'я', " продаж", 3, 10);
    MatchesMeaning(Patterns[7].pattern, s);
  }

  lemma DailyWordMatchesMonthly(a: string, b: string, c: string)
    requires a == "ежедневные" && b == " продажи" && c == " по месяцам"
    ensures Matches(Patterns[8].pattern, a + (b + c))
  {
    assert b[1..8] == "продажи";
    OccursInLeft(b, c, "продажи", 1);
    OccursInRight(b, c, " по месяцам", 0);
    assert "продажи по месяцам" == "продажи" + " по месяцам";
    OccursConcat(b + c, "продажи", " по месяцам", 1);
    OccursInRight(a, b + c, "продажи по месяцам", 1);
    MatchesMeaning(Patterns[8].pattern, a + (b + c));
  }

  lemma DailyWordLetters(s: string)
    requires s == "ежедневные продажи по месяцам"
    ensures 'к' !in s && 'т' !in s && 'з' !in s
  {
  }

  lemma DailyWordMoreLetters(s: string)
    requires s == "ежедневные продажи по месяцам"
    ensures 'ч' !in s && 'л' !in s
  {
  }

  /** `ежедневные продажи по месяцам` also matches `продажи по месяцам`, but the
      daily pattern is declared first and wins. */
  lemma DailyBeforeMonthly(s: string)
    requires s == "ежедневные продажи по месяцам"
    ensures Matches(Patterns[8].pattern, s)
    ensures FirstMatch(s) == Some(Daily)
  {
    var a, b, c := "ежедневные", " продажи", " по месяцам";
    assert s == a + (b + c);
    DailyWordMatchesDaily(a, b, c);
    DailyWordMatchesMonthly(a, b, c);
    DailyWordLetters(s);
    DailyWordMoreLetters(s);
    AnchorsAbsent(s, 7, ['к', 'т', 'з', 'з', 'з', 'ч', 'л']);
    FirstMatchAt(s, 7);
  }

  lemma MonthlyWordMatches(s: string)
    requires s == "ежемесячные продажи"
    ensures Matches(Patterns[5].pattern, s)
  {
    var a, b := "ежемесячные", " продажи";
    assert s == a + b;
    assert a[3..9] == "месячн" && b[0..7] == " продаж";
    OccursInLeft(a, b, "месячн", 3);
    OccursInRight(a, b, " продаж", 0);
    assert s[9] == a[9] && s[10] == a[10];
    assert RunAt(s, "месячн", 'а', 'я', " продаж", 3, 11);
    MatchesMeaning(Patterns[5].pattern, s);
  }

  lemma MonthlyWordLetters(s: string)
    requires s == "ежемесячные продажи"
    ensures 'к' !in s && 'т' !in s && 'з' !in s
  {
  }

  /** `ежемесячные продажи` reaches the monthly handler: the search finds `месячн` inside the word. */
  lemma MonthlyInsideWord(s: string)
    requires s == "ежемесячные продажи"
    ensures FirstMatch(s) == Some(Monthly)
  {
    MonthlyWordMatches(s);
    MonthlyWordLetters(s);
    AnchorsAbsent(s, 5, ['к', 'т', 'з', 'з', 'з']);
    FirstMatchAt(s, 5);
  }
}
