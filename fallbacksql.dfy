/** The keyword fallback generators that stand in for the language model: the
    `SimpleSQLGenerator` of the fix-up script, an if/elif chain of keyword tests each
    returning a constant SELECT, and the shorter variant defined in the web app. */
module FallbackSql {
  import opened Text

  /** The constant answers, one per branch of the chain. */
  datatype Answer =
    | TopProducts
    | SalesDynamics
    | EmployeesByDepartment
    | ProjectRevenue
    | TotalRevenue
    | ProjectList
    | EmployeeList
    | Incidents
    | Suggestion

  /** One branch: it fires when every group has one of its words in the text, that is an
      `and` of `or`s of `word in query` tests. */
  datatype KeywordRule = KeywordRule(groups: seq<seq<string>>, answer: Answer)

  predicate Fires(q: string, rule: KeywordRule) {
    forall g :: 0 <= g < |rule.groups| ==> ContainsAny(q, rule.groups[g])
  }

  /** The branches of `SimpleSQLGenerator.generate_sql` in the order they are tried;
      `Suggestion` is the final `else`. */
  const SimpleRules: seq<KeywordRule> := [
    KeywordRule([["топ", "лучш"], ["товар", "продукт", "продаж"]], TopProducts),
    KeywordRule([["динамик", "трен"], ["продаж", "выручк"]], SalesDynamics),
    KeywordRule([["сотрудник", "работник"], ["отдел", "департамент"]], EmployeesByDepartment),
    KeywordRule([["выручк", "доход", "продаж"], ["проект"]], ProjectRevenue),
    KeywordRule([["общая выручка", "общий доход"]], TotalRevenue),
    KeywordRule([["проект"], ["все", "список"]], ProjectList),
    KeywordRule([["сотрудник"], ["все", "список"]], EmployeeList),
    KeywordRule([["инцидент", "безопасность"]], Incidents)
  ]

  /** The answer of the first rule from `i` on that fires, else `Suggestion`. */
  function FirstAnswer(q: string, rules: seq<KeywordRule>, i: nat): Answer
    decreases |rules| - i
  {
    if i >= |rules| then Suggestion
    else if Fires(q, rules[i]) then rules[i].answer
    else FirstAnswer(q, rules, i + 1)
  }

  /** Which branch `SimpleSQLGenerator.generate_sql` takes for a query. */
  function SimpleAnswer(query: string): (r: Answer)
    ensures r == Suggestion <==> forall j :: 0 <= j < |SimpleRules| ==> !Fires(Lower(query), SimpleRules[j])
    ensures r != Suggestion ==>
      exists m :: 0 <= m < |SimpleRules| && SimpleRules[m].answer == r && Fires(Lower(query), SimpleRules[m])
        && forall j :: 0 <= j < m ==> !Fires(Lower(query), SimpleRules[j])
  {
    FirstAnswerWitness(Lower(query), SimpleRules, 0);
    FirstAnswer(Lower(query), SimpleRules, 0)
  }

  /** The text after `SELECT` in the top-products answer, in groups of pieces (their
      concatenation is the exact text); each clause the answer is known by is a piece of its
      own, second in its group. */
  const TopProductsColumns: seq<string> := [
    " \n"
    + "                        product_name,\n"
    + "                        SUM(revenue) as total_revenue,\n"
    + "                        SUM(quantity) as total_quantity,\n"
    + "                        COUNT(*) as transactions\n"
    + "                    ", "FROM production", " \n"]
  const TopProductsGroup: seq<string> := [
    "                    WHERE date >= date('now', '-1 month')\n"
    + "                        AND revenue IS NOT NULL\n"
    + "                    ", "GROUP BY product_name", "\n"]
  const TopProductsOrder: seq<string> := ["                    ", "ORDER BY total_revenue DESC", "\n"]
  const TopProductsLimit: seq<string> := ["                    ", "LIMIT 5", "\n                "]
  const TopProductsLines: seq<string> := TopProductsColumns + TopProductsGroup + TopProductsOrder + TopProductsLimit

  /** The text after `SELECT` in the project-list answer, in pieces. */
  const ProjectListLines: seq<string> :=
    [" project_name, budget, status, start_date, department ", "FROM projects", " ", "ORDER BY budget DESC LIMIT 20"]

  /** The SQL text of each branch, character for character. */
  function AnswerSql(a: Answer): (r: string)
    ensures Contains(r, "SELECT")
  {
    match a
    case TopProducts => Around("\n                    ", "SELECT", Concat(TopProductsLines))
    case SalesDynamics => Around("\n                    ", "SELECT",
        " \n"
        + "                        strftime('%Y-%m', date) as month,\n"
        + "                        SUM(revenue) as total_revenue,\n"
        + "                        SUM(quantity) as total_quantity\n"
        + "                    FROM production \n"
        + "                    WHERE date >= date('now', '-1 year')\n"
        + "                        AND revenue IS NOT NULL\n"
        + "                        AND date IS NOT NULL\n"
        + "                    GROUP BY strftime('%Y-%m', date)\n"
        + "                    ORDER BY month\n"
        + "                ")
    case EmployeesByDepartment => Around("\n                    ", "SELECT",
        " \n"
        + "                        department,\n"
        + "                        COUNT(*) as employee_count,\n"
        + "                        AVG(salary) as avg_salary,\n"
        + "                        AVG(performance_score) as avg_performance\n"
        + "                    FROM employees \n"
        + "                    WHERE department IS NOT NULL\n"
        + "                    GROUP BY department\n"
        + "                    ORDER BY employee_count DESC\n"
        + "                ")
    case ProjectRevenue => Around("\n                    ", "SELECT",
        " \n"
        + "                        p.project_name,\n"
        + "                        p.status,\n"
        + "                        COALESCE(SUM(pr.revenue), 0) as total_revenue,\n"
        + "                        p.budget,\n"
        + "                        p.start_date\n"
        + "                    FROM projects p\n"
        + "                    LEFT JOIN production pr ON p.project_id = pr.project_id\n"
        + "                    GROUP BY p.project_id, p.project_name, p.status, p.budget, p.start_date\n"
        + "                    ORDER BY total_revenue DESC\n"
        + "                ")
    case TotalRevenue => Around("\n                    ", "SELECT",
        " \n"
        + "                        'Общая выручка' as metric,\n"
        + "                        SUM(revenue) as value,\n"
        + "                        'руб.' as unit\n"
        + "                    FROM production \n"
        + "                    WHERE revenue IS NOT NULL\n"
        + "                    UNION ALL\n"
        + "                    SELECT \n"
        + "                        'Средняя выручка за транзакцию',\n"
        + "                        AVG(revenue),\n"
        + "                        'руб.'\n"
        + "                    FROM production \n"
        + "                    WHERE revenue IS NOT NULL\n"
        + "                    UNION ALL\n"
        + "                    SELECT \n"
        + "                        'Количество транзакций',\n"
        + "                        COUNT(*),\n"
        + "                        'шт.'\n"
        + "                    FROM production \n"
        + "                    WHERE revenue IS NOT NULL\n"
        + "                ")
    case ProjectList => Around("", "SELECT", Concat(ProjectListLines))
    case EmployeeList => Around("", "SELECT",
        " first_name || ' ' || last_name as full_name, department, position, salary, performance_score FROM employees ORDER BY performance_score DESC LIMIT 20")
    case Incidents => Around("", "SELECT",
        " date, description, severity, department, resolved FROM safety_incidents ORDER BY date DESC LIMIT 10")
    case Suggestion => Around("\n                    ", "SELECT",
        " 'Используйте более конкретный запрос' as suggestion,\n"
        + "                           'Примеры:' as examples,\n"
        + "                           '• Покажи топ-5 товаров по продажам за последний месяц' as example1,\n"
        + "                           '• Сколько сотрудников в каждом отделе?' as example2,\n"
        + "                           '• Какая общая выручка по проектам?' as example3,\n"
        + "                           '• Покажи динамику продаж за последний год' as example4\n"
        + "                ")
  }

  /** `SimpleSQLGenerator.generate_sql`. */
  /** Every input, the empty text included, gets a non-empty statement holding `SELECT`. */
  function SimpleSql(query: string): (r: string)
    ensures Contains(r, "SELECT") && |r| > 0
  {
    AnswerSql(SimpleAnswer(query))
  }

  // ---------------------------------------------------------------------------
  // The variant defined in the web app
  // ---------------------------------------------------------------------------

  /** What the web app's variant answers when its single rule does not fire. */
  const ClarifySql := Around("", "SELECT", " 'Пожалуйста, уточните запрос' as message")

  /** The web app's `SimpleSQLGenerator.generate_sql`: only the top-products branch is kept. */
  function AppFallbackSql(query: string): (r: string)
    ensures r == AnswerSql(TopProducts) <==> Fires(Lower(query), SimpleRules[0])
    ensures r != AnswerSql(TopProducts) ==> r == ClarifySql
    ensures Contains(r, "SELECT")
  {
    ClarifyDiffers();
    if Fires(Lower(query), SimpleRules[0]) then AnswerSql(TopProducts) else ClarifySql
  }

  // ---------------------------------------------------------------------------
  // Properties
  // ---------------------------------------------------------------------------

  /** The first rule that fires decides. */
  lemma {:induction false} FirstAnswerAt(q: string, rules: seq<KeywordRule>, i: nat, m: nat)
    requires i <= m < |rules| && Fires(q, rules[m])
    requires forall j :: i <= j < m ==> !Fires(q, rules[j])
    ensures FirstAnswer(q, rules, i) == rules[m].answer
    decreases m - i
  {
    if i < m {
      FirstAnswerAt(q, rules, i + 1, m);
    }
  }

  /** The final `else` is taken exactly when no rule fires; any other answer comes from a rule
      that fires with no earlier rule firing. */
  lemma {:induction false} FirstAnswerWitness(q: string, rules: seq<KeywordRule>, i: nat)
    requires forall j :: 0 <= j < |rules| ==> rules[j].answer != Suggestion
    ensures FirstAnswer(q, rules, i) == Suggestion <==> forall j :: i <= j < |rules| ==> !Fires(q, rules[j])
    ensures FirstAnswer(q, rules, i) != Suggestion ==>
      exists m :: i <= m < |rules| && rules[m].answer == FirstAnswer(q, rules, i) && Fires(q, rules[m])
        && forall j :: i <= j < m ==> !Fires(q, rules[j])
    decreases |rules| - i
  {
    if i < |rules| && !Fires(q, rules[i]) {
      FirstAnswerWitness(q, rules, i + 1);
      var r := FirstAnswer(q, rules, i);
      if r != Suggestion {
        var m :| i + 1 <= m < |rules| && rules[m].answer == r && Fires(q, rules[m])
          && forall j :: i + 1 <= j < m ==> !Fires(q, rules[j]);
        assert i <= m;
      }
    }
  }

  /** The empty query gets the suggestion text. */
  lemma EmptyQuerySuggestion()
    ensures SimpleAnswer("") == Suggestion
  {
    assert Lower("") == "";
    forall j | 0 <= j < |SimpleRules|
      ensures !Fires("", SimpleRules[j])
    {
      var ws := SimpleRules[j].groups[0];
      assert forall k :: 0 <= k < |ws| ==> |ws[k]| > 0;
    }
    FirstAnswerWitness("", SimpleRules, 0);
  }

  /** 'топ' or 'лучш' together with a product word gives the top-five products, whatever else
      the text holds. */
  lemma TopProductsWins(query: string)
    requires Contains(Lower(query), "топ") || Contains(Lower(query), "лучш")
    requires Contains(Lower(query), "товар") || Contains(Lower(query), "продукт") || Contains(Lower(query), "продаж")
    ensures SimpleAnswer(query) == TopProducts
  {
    var q := Lower(query);
    TopRuleMeaning(q);
    FirstAnswerAt(q, SimpleRules, 0, 0);
  }

  /** The top-products test spelled out: ('топ' or 'лучш') and ('товар' or 'продукт' or 'продаж'). */
  lemma TopRuleMeaning(q: string)
    ensures Fires(q, SimpleRules[0]) <==>
      (Contains(q, "топ") || Contains(q, "лучш"))
      && (Contains(q, "товар") || Contains(q, "продукт") || Contains(q, "продаж"))
  {
    var g0, g1 := SimpleRules[0].groups[0], SimpleRules[0].groups[1];
    assert ContainsAny(q, g0) <==> Contains(q, g0[0]) || Contains(q, g0[1]);
    assert ContainsAny(q, g1) <==> Contains(q, g1[0]) || Contains(q, g1[1]) || Contains(q, g1[2]);
  }

  /** A revenue question about projects gets the per-project revenue, never the overall
      total, once the first three branches pass: 'общая выручка' is also a revenue word. */
  lemma ProjectRevenueBeforeTotal(query: string)
    requires forall j :: 0 <= j < 3 ==> !Fires(Lower(query), SimpleRules[j])
    requires Contains(Lower(query), "проект")
    requires Contains(Lower(query), "выручк") || Contains(Lower(query), "доход") || Contains(Lower(query), "продаж")
    ensures SimpleAnswer(query) == ProjectRevenue
  {
    var q := Lower(query);
    var g := SimpleRules[3].groups;
    assert Contains(q, g[1][0]);
    assert ContainsAny(q, g[0]) by {
      if Contains(q, "выручк") { assert Contains(q, g[0][0]); }
      else if Contains(q, "доход") { assert Contains(q, g[0][1]); }
      else { assert Contains(q, g[0][2]); }
    }
    FirstAnswerAt(q, SimpleRules, 0, 3);
  }

  /** An employee-or-worker question that names a department, and that the top-products and
      dynamics rules let pass, gets the per-department employee summary. */
  lemma EmployeesByDepartmentRule(query: string)
    requires forall j :: 0 <= j < 2 ==> !Fires(Lower(query), SimpleRules[j])
    requires Contains(Lower(query), "сотрудник") || Contains(Lower(query), "работник")
    requires Contains(Lower(query), "отдел") || Contains(Lower(query), "департамент")
    ensures SimpleAnswer(query) == EmployeesByDepartment
  {
    var q := Lower(query);
    var g := SimpleRules[2].groups;
    assert ContainsAny(q, g[0]) by {
      if Contains(q, "сотрудник") { assert Contains(q, g[0][0]); }
      else { assert Contains(q, g[0][1]); }
    }
    assert ContainsAny(q, g[1]) by {
      if Contains(q, "отдел") { assert Contains(q, g[1][0]); }
      else { assert Contains(q, g[1][1]); }
    }
    FirstAnswerAt(q, SimpleRules, 0, 2);
  }

  /** A question about "all" projects or a project "list", when none of the five rules before it
      fires, gets the project list. */
  lemma ProjectListRule(query: string)
    requires forall j :: 0 <= j < 5 ==> !Fires(Lower(query), SimpleRules[j])
    requires Contains(Lower(query), "проект")
    requires Contains(Lower(query), "все") || Contains(Lower(query), "список")
    ensures SimpleAnswer(query) == ProjectList
  {
    var q := Lower(query);
    var g := SimpleRules[5].groups;
    assert Contains(q, g[0][0]);
    assert ContainsAny(q, g[1]) by {
      if Contains(q, "все") { assert Contains(q, g[1][0]); }
      else { assert Contains(q, g[1][1]); }
    }
    FirstAnswerAt(q, SimpleRules, 0, 5);
  }

  /** The top-products answer reads the production table. */
  lemma TopProductsFromProduction()
    ensures Contains(AnswerSql(TopProducts), "FROM production")
  {
    var rest := TopProductsGroup + TopProductsOrder + TopProductsLimit;
    assert TopProductsLines == [] + TopProductsColumns + rest;
    ConcatGroupHoldsPart([], TopProductsColumns, rest, 1);
    AroundKeeps("\n                    ", "SELECT", Concat(TopProductsLines), "FROM production");
  }

  /** It sums per product. */
  lemma TopProductsPerProduct()
    ensures Contains(AnswerSql(TopProducts), "GROUP BY product_name")
  {
    ConcatGroupHoldsPart(TopProductsColumns, TopProductsGroup, TopProductsOrder + TopProductsLimit, 1);
    assert TopProductsLines == TopProductsColumns + TopProductsGroup + (TopProductsOrder + TopProductsLimit);
    AroundKeeps("\n                    ", "SELECT", Concat(TopProductsLines), "GROUP BY product_name");
  }

  /** Highest revenue first. */
  lemma TopProductsByRevenue()
    ensures Contains(AnswerSql(TopProducts), "ORDER BY total_revenue DESC")
  {
    ConcatGroupHoldsPart(TopProductsColumns + TopProductsGroup, TopProductsOrder, TopProductsLimit, 1);
    AroundKeeps("\n                    ", "SELECT", Concat(TopProductsLines), "ORDER BY total_revenue DESC");
  }

  /** And keeps five rows. */
  lemma TopProductsFive()
    ensures Contains(AnswerSql(TopProducts), "LIMIT 5")
  {
    var before := TopProductsColumns + TopProductsGroup + TopProductsOrder;
    assert TopProductsLines == before + TopProductsLimit + [];
    ConcatGroupHoldsPart(before, TopProductsLimit, [], 1);
    AroundKeeps("\n                    ", "SELECT", Concat(TopProductsLines), "LIMIT 5");
  }

  /** The project list reads the projects table, biggest budget first, at most twenty rows. */
  lemma ProjectListClauses()
    ensures Contains(AnswerSql(ProjectList), "FROM projects")
    ensures Contains(AnswerSql(ProjectList), "ORDER BY budget DESC LIMIT 20")
  {
    AroundContainsPart("", "SELECT", ProjectListLines, 1);
    AroundContainsPart("", "SELECT", ProjectListLines, 3);
  }

  /** The overall-total answer is only ever given to texts that do not mention projects:
      both of its phrases hold a revenue word of the project-revenue branch before it. */
  lemma TotalRevenueWithoutProject(query: string)
    requires SimpleAnswer(query) == TotalRevenue
    ensures !Contains(Lower(query), "проект")
    ensures Contains(Lower(query), "общая выручка") || Contains(Lower(query), "общий доход")
  {
    var q := Lower(query);
    TotalRevenueRule(q);
    var revenue := SimpleRules[3].groups[0];
    var w :| 0 <= w < 2 && Contains(q, SimpleRules[4].groups[0][w]);
    TotalPhrasesHoldRevenue(q);
    if w == 0 {
      assert Contains(q, revenue[0]);
    } else {
      assert Contains(q, revenue[1]);
    }
    assert !ContainsAny(q, SimpleRules[3].groups[1]);
    assert SimpleRules[3].groups[1][0] == "проект";
  }

  /** Each phrase of the overall-total branch holds a revenue word. */
  lemma TotalPhrasesHoldRevenue(q: string)
    ensures Contains(q, "общая выручка") ==> Contains(q, "выручк")
    ensures Contains(q, "общий доход") ==> Contains(q, "доход")
  {
    Within(q, "общая выручка", "выручк", 6);
    Within(q, "общий доход", "доход", 6);
  }

  /** The overall total comes from its own branch, after the project-revenue branch failed. */
  lemma TotalRevenueRule(q: string)
    requires FirstAnswer(q, SimpleRules, 0) == TotalRevenue
    ensures Fires(q, SimpleRules[4]) && !Fires(q, SimpleRules[3])
  {
    FirstAnswerWitness(q, SimpleRules, 0);
    var m :| 0 <= m < |SimpleRules| && SimpleRules[m].answer == TotalRevenue && Fires(q, SimpleRules[m])
      && forall j :: 0 <= j < m ==> !Fires(q, SimpleRules[j]);
    assert m == 4;
  }

  /** The two answers of the web app's variant are different texts. */
  lemma ClarifyDiffers()
    ensures ClarifySql != AnswerSql(TopProducts)
  {
    assert AnswerSql(TopProducts)[0] == '\n';
    assert ClarifySql[0] == 'S';
  }

  /** A text holding `outer` holds every piece of it. */
  lemma Within(q: string, outer: string, inner: string, at: nat)
    requires at + |inner| <= |outer| && outer[at..at + |inner|] == inner
    ensures Contains(q, outer) ==> Contains(q, inner)
  {
    ContainsWitness(outer, inner, at);
    if Contains(q, outer) {
      ContainsTransitive(q, outer, inner);
    }
  }

  /** The web app's variant answers the top-five products exactly when the first branch
      fires, agreeing there with the full chain, and asks to rephrase otherwise. */
  lemma AppFallbackIff(query: string)
    ensures AppFallbackSql(query) == AnswerSql(TopProducts) <==>
      (Contains(Lower(query), "топ") || Contains(Lower(query), "лучш"))
      && (Contains(Lower(query), "товар") || Contains(Lower(query), "продукт") || Contains(Lower(query), "продаж"))
    ensures AppFallbackSql(query) != AnswerSql(TopProducts) ==> AppFallbackSql(query) == ClarifySql
    ensures AppFallbackSql(query) == AnswerSql(TopProducts) ==> AppFallbackSql(query) == SimpleSql(query)
  {
    var q := Lower(query);
    TopRuleMeaning(q);
    ClarifyDiffers();
    if Fires(q, SimpleRules[0]) {
      FirstAnswerAt(q, SimpleRules, 0, 0);
    }
  }
}
