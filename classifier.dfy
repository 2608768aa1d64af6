/** `_determine_query_type` and `_generate_sql_for_table`: an ordered keyword classifier picks
    a query kind, the kind picks a template from the table's bank (falling back to the
    general entry), a "top" fix-up may add an ORDER BY, and a `;` is appended unless the
    text already ends with one. */
module QueryClassifier {
  import opened Text
  import SalesPatterns

  /** The keys of the template bank; each constructor notes the key it stands for. */
  datatype Kind =
    | General        // 'общие'
    | Dynamics       // 'динамика'
    | Monthly        // 'ежемесячно'
    | Weekly         // 'еженедельно'
    | Daily          // 'ежедневно'
    | HowMany        // 'сколько'
    | Top            // 'топ'
    | Compare        // 'сравн'
    | Revenue        // 'выручк'
    | Salary         // 'зарплат'
    | Budget         // 'бюджет'
    | LastMonth      // 'последний месяц'
    | Department     // 'отдел'
    | Status         // 'статус'
    | InProgress     // 'работа'
    | All            // 'все'
    | AverageSalary  // 'средняя зарплата'
    | Statistics     // 'статистика'
    | TotalRevenue   // 'общая выручка'
    | CostByType     // 'стоимость по типам'
    | Efficiency     // 'эффективность'
    | ActiveProjects // 'активные проекты'
    | Sales          // 'продаж'
    | Goods          // 'товар'
    | ByDepartment   // 'по отделам'
    | Cost           // 'стоимость'
    | Repair         // 'ремонт'
    | Severity       // 'серьезность'
    | Unresolved     // 'не решен'

  // ---------------------------------------------------------------------------
  // Classification
  // ---------------------------------------------------------------------------

  const DynamicsWords: seq<string> := ["динамик", "тренд", "график", "изменени"]

  /** The kinds only `production` has, tried before anything else. */
  function ProductionKind(q: string): Option<Kind> {
    if ContainsAny(q, DynamicsWords) then Some(Dynamics)
    else if Contains(q, "месячн") then Some(Monthly)
    else if Contains(q, "недел") then Some(Weekly)
    else if Contains(q, "дневн") || Contains(q, "за день") then Some(Daily)
    else None
  }

  /** The word lists of the generic `elif` chain, in order. */
  const GenericWords: seq<seq<string>> := [
    ["сколько", "количество", "count", "число"],
    ["топ", "лучш", "первые", "последние"],
    ["сравн", "compare", "против"],
    ["выручк", "revenue", "доход"],
    ["зарплат", "salary"],
    ["бюджет", "budget"],
    ["последний месяц", "за месяц", "месяц"],
    ["отдел", "department"],
    ["статус", "status"],
    ["работа", "в работе"],
    ["все", "покажи все", "весь"],
    ["средн", "avg", "average"],
    ["общ", "total", "итого"]
  ]

  /** The kind the `i`-th generic rule returns; the last two depend on the table. */
  function GenericKind(i: nat, table: string): Kind {
    if i == 0 then HowMany
    else if i == 1 then Top
    else if i == 2 then Compare
    else if i == 3 then Revenue
    else if i == 4 then Salary
    else if i == 5 then Budget
    else if i == 6 then LastMonth
    else if i == 7 then Department
    else if i == 8 then Status
    else if i == 9 then InProgress
    else if i == 10 then All
    else if i == 11 then (if table == "employees" then AverageSalary else Statistics)
    else (if table == "production" then TotalRevenue else CostByType)
  }

  predicate Fires(q: string, i: nat)
    requires i < |GenericWords|
  {
    ContainsAny(q, GenericWords[i])
  }

  /** The kind of the first generic rule at or after `i` whose words occur in `q`. */
  function FirstFiring(q: string, table: string, i: nat): Option<Kind>
    requires i <= |GenericWords|
    decreases |GenericWords| - i
  {
    if i == |GenericWords| then None
    else if Fires(q, i) then Some(GenericKind(i, table))
    else FirstFiring(q, table, i + 1)
  }

  /** A generic rule never yields a production-only kind, the general default, or one of the
      bank keys no rule returns. */
  lemma {:induction false} FirstFiringRange(q: string, table: string, i: nat)
    requires i <= |GenericWords|
    ensures FirstFiring(q, table, i).Some? ==>
      FirstFiring(q, table, i).value !in {General, Dynamics, Monthly, Weekly, Daily}
      && FirstFiring(q, table, i).value !in {Efficiency, ActiveProjects, Sales, Goods, ByDepartment, Cost, Repair, Severity, Unresolved}
    decreases |GenericWords| - i
  {
    if i < |GenericWords| {
      if Fires(q, i) {
        GenericKindRange(i, table);
      } else {
        FirstFiringRange(q, table, i + 1);
      }
    }
  }

  /** `_determine_query_type(q, table)`; `q` is already lowercased. */
  function QueryType(q: string, table: string): (r: Kind)
    ensures r in {Dynamics, Monthly, Weekly, Daily} ==> table == "production"
    ensures r !in {Efficiency, ActiveProjects, Sales, Goods, ByDepartment, Cost, Repair, Severity, Unresolved}
  {
    FirstFiringRange(q, table, 0);
    if table == "production" && ProductionKind(q).Some? then ProductionKind(q).value
    else
      match FirstFiring(q, table, 0)
      case Some(k) => k
      case None => General
  }

  // ---------------------------------------------------------------------------
  // The template bank
  // ---------------------------------------------------------------------------

  /** The tables that have a template bank. */
  predicate HasBank(table: string) {
    table == "employees" || table == "projects" || table == "production"
    || table == "equipment" || table == "safety_incidents"
  }

  /** The `employees` entries of the template bank; the count and top ones are ordered. */
  function EmployeesTemplate(k: Kind): (r: Option<string>)
    ensures k in {HowMany, Top} ==> r.Some? && Contains(r.value, "ORDER BY")
  {
    match k
    case General => Some("SELECT * FROM employees LIMIT 10")
    case HowMany => Some(Around("SELECT department, COUNT(*) as employee_count FROM employees GROUP BY department ", "ORDER BY", " employee_count DESC"))
    case Department => Some(Around("SELECT department, COUNT(*) as employee_count FROM employees GROUP BY department ", "ORDER BY", " employee_count DESC"))
    case Salary => Some(Around("SELECT first_name, last_name, department, salary FROM employees ", "ORDER BY", " salary DESC LIMIT 10"))
    case Efficiency => Some(Around("SELECT first_name, last_name, department, performance_score FROM employees ", "ORDER BY", " performance_score DESC LIMIT 10"))
    case Top => Some(Around("SELECT first_name, last_name, department, performance_score FROM employees ", "ORDER BY", " performance_score DESC LIMIT 5"))
    case All => Some("SELECT * FROM employees LIMIT 20")
    case AverageSalary => Some(Around("SELECT department, AVG(salary) as avg_salary FROM employees GROUP BY department ", "ORDER BY", " avg_salary DESC"))
    case _ => None
  }

  /** The `projects` entries of the template bank. */
  function ProjectsTemplate(k: Kind): Option<string> {
    match k
    case General => Some("SELECT * FROM projects LIMIT 10")
    case Budget => Some(Around("SELECT project_name, budget, status FROM projects ", "ORDER BY", " budget DESC LIMIT 10"))
    case Status => Some("SELECT status, COUNT(*) as count FROM projects GROUP BY status")
    case InProgress => Some(Around("SELECT project_name, budget, start_date FROM projects WHERE status = 'В работе' ", "ORDER BY", " budget DESC"))
    case Compare => Some(Around("SELECT project_name, budget, actual_cost FROM projects ", "ORDER BY", " budget DESC LIMIT 10"))
    case All => Some(Around("SELECT * FROM projects ", "ORDER BY", " start_date DESC LIMIT 15"))
    case ActiveProjects => Some(Around("SELECT project_name, budget, start_date, manager_id FROM projects WHERE status = 'В работе' ", "ORDER BY", " start_date DESC"))
    case _ => None
  }

  /** The `production` entries of the template bank. */
  function ProductionTemplate(k: Kind, available: seq<string>): Option<string> {
    match k
    case General => Some(Around(
          "\n"
          + "                    SELECT \n"
          + "                        substr(date, 1, 10) as date, \n"
          + "                        product_name, \n"
          + "                        revenue, \n"
          + "                        quantity \n"
          + "                    FROM production \n"
          + "                    WHERE revenue IS NOT NULL \n"
          + "                    ", "ORDER BY",
          " date DESC \n"
          + "                    LIMIT 10\n"
          + "                "))
    case Dynamics => Some(SalesPatterns.SalesSql(SalesPatterns.Dynamics, "динамика продаж", available))
    case Monthly => Some(SalesPatterns.SalesSql(SalesPatterns.Monthly, "ежемесячные продажи", available))
    case Top => Some(Around(
          "\n"
          + "                    SELECT \n"
          + "                        product_name, \n"
          + "                        SUM(revenue) as total_revenue,\n"
          + "                        SUM(quantity) as total_quantity\n"
          + "                    FROM production \n"
          + "                    WHERE revenue IS NOT NULL\n"
          + "                    GROUP BY product_name \n"
          + "                    ", "ORDER BY",
          " total_revenue DESC \n"
          + "                    LIMIT 5\n"
          + "                "))
    case Sales => Some(Around(
          "\n"
          + "                    SELECT \n"
          + "                        product_name, \n"
          + "                        SUM(revenue) as total_revenue,\n"
          + "                        COUNT(*) as transaction_count\n"
          + "                    FROM production \n"
          + "                    WHERE revenue IS NOT NULL\n"
          + "                    GROUP BY product_name \n"
          + "                    ", "ORDER BY",
          " total_revenue DESC\n"
          + "                "))
    case Revenue => Some(Around(
          "\n"
          + "                    SELECT \n"
          + "                        product_name, \n"
          + "                        SUM(revenue) as total_revenue\n"
          + "                    FROM production \n"
          + "                    WHERE revenue IS NOT NULL\n"
          + "                    GROUP BY product_name \n"
          + "                    ", "ORDER BY",
          " total_revenue DESC\n"
          + "                "))
    case LastMonth => Some(Around(
          "\n"
          + "                    WITH cleaned_dates AS (\n"
          + "                        SELECT \n"
          + "                            CASE \n"
          + "                                WHEN date LIKE '____-__-__%' THEN substr(date, 1, 10)\n"
          + "                                WHEN date LIKE '__.__.____%' THEN \n"
          + "                                    substr(date, 7, 4) || '-' || \n"
          + "                                    substr(date, 4, 2) || '-' || \n"
          + "                                    substr(date, 1, 2)\n"
          + "                                ELSE substr(date, 1, 10)\n"
          + "                            END as clean_date,\n"
          + "                            revenue,\n"
          + "                            product_name\n"
          + "                        FROM production\n"
          + "                        WHERE revenue IS NOT NULL \n"
          + "                            AND revenue > 0\n"
          + "                    )\n"
          + "                    SELECT \n"
          + "                        clean_date as date,\n"
          + "                        product_name, \n"
          + "                        revenue \n"
          + "                    FROM cleaned_dates \n"
          + "                    WHERE clean_date LIKE '____-__-__'\n"
          + "                        AND clean_date >= date('now', '-1 month')\n"
          + "                    ", "ORDER BY",
          " clean_date DESC \n"
          + "                    LIMIT 20\n"
          + "                "))
    case Goods => Some(Around(
          "\n"
          + "                    SELECT \n"
          + "                        product_name, \n"
          + "                        SUM(quantity) as total_quantity, \n"
          + "                        SUM(revenue) as total_revenue,\n"
          + "                        COUNT(*) as transaction_count\n"
          + "                    FROM production \n"
          + "                    WHERE revenue IS NOT NULL\n"
          + "                    GROUP BY product_name \n"
          + "                    ", "ORDER BY",
          " total_revenue DESC\n"
          + "                "))
    case All => Some(Around(
          "\n"
          + "                    SELECT \n"
          + "                        substr(date, 1, 10) as date, \n"
          + "                        product_name, \n"
          + "                        revenue, \n"
          + "                        quantity \n"
          + "                    FROM production \n"
          + "                    WHERE revenue IS NOT NULL\n"
          + "                    ", "ORDER BY",
          " date DESC \n"
          + "                    LIMIT 20\n"
          + "                "))
    case TotalRevenue => Some(
        ("\n"
        + "                    SELECT \n"
        + "                        SUM(revenue) as total_revenue, \n"
        + "                        SUM(quantity) as total_quantity,\n"
        + "                        COUNT(*) as total_transactions\n"
        + "                    FROM production \n"
        + "                    WHERE revenue IS NOT NULL\n"
        + "                "))
    case ByDepartment => Some(Around(
          "\n"
          + "                    SELECT \n"
          + "                        department, \n"
          + "                        SUM(revenue) as department_revenue,\n"
          + "                        COUNT(*) as transaction_count\n"
          + "                    FROM production \n"
          + "                    WHERE revenue IS NOT NULL\n"
          + "                    GROUP BY department \n"
          + "                    ", "ORDER BY",
          " department_revenue DESC\n"
          + "                "))
    case _ => None
  }

  /** The `equipment` entries of the template bank. */
  function EquipmentTemplate(k: Kind): Option<string> {
    match k
    case General => Some("SELECT * FROM equipment LIMIT 10")
    case Cost => Some(Around("SELECT equipment_name, type, cost FROM equipment ", "ORDER BY", " cost DESC LIMIT 10"))
    case Status => Some("SELECT status, COUNT(*) as count FROM equipment GROUP BY status")
    case Department => Some(Around("SELECT department, COUNT(*) as equipment_count FROM equipment GROUP BY department ", "ORDER BY", " equipment_count DESC"))
    case Repair => Some(Around("SELECT * FROM equipment WHERE status = 'Требует ремонта' ", "ORDER BY", " purchase_date"))
    case All => Some(Around("SELECT * FROM equipment ", "ORDER BY", " purchase_date DESC LIMIT 15"))
    case CostByType => Some(Around("SELECT type, SUM(cost) as total_cost FROM equipment GROUP BY type ", "ORDER BY", " total_cost DESC"))
    case _ => None
  }

  /** The `safety_incidents` entries of the template bank. */
  function SafetyTemplate(k: Kind): Option<string> {
    match k
    case General => Some(Around("SELECT * FROM safety_incidents ", "ORDER BY", " date DESC LIMIT 10"))
    case LastMonth => Some(Around("SELECT * FROM safety_incidents WHERE date >= date('now', '-1 month') ", "ORDER BY", " date DESC LIMIT 10"))
    case Severity => Some(Around("SELECT severity, COUNT(*) as count FROM safety_incidents GROUP BY severity ", "ORDER BY", " count DESC"))
    case Department => Some(Around("SELECT department, COUNT(*) as incident_count FROM safety_incidents GROUP BY department ", "ORDER BY", " incident_count DESC"))
    case Unresolved => Some(Around("SELECT * FROM safety_incidents WHERE resolved = 0 ", "ORDER BY", " date DESC"))
    case All => Some(Around("SELECT * FROM safety_incidents ", "ORDER BY", " date DESC LIMIT 15"))
    case Statistics => Some("SELECT severity, COUNT(*) as count, AVG(resolution_time_hours) as avg_resolution_time FROM safety_incidents GROUP BY severity")
    case _ => None
  }

  /** `base_queries[table].get(kind)`; `available` is what the sales handlers see. */
  function BankEntry(table: string, k: Kind, available: seq<string>): Option<string> {
    if table == "employees" then EmployeesTemplate(k)
    else if table == "projects" then ProjectsTemplate(k)
    else if table == "production" then ProductionTemplate(k, available)
    else if table == "equipment" then EquipmentTemplate(k)
    else if table == "safety_incidents" then SafetyTemplate(k)
    else None
  }

  /** The kind's entry, else the general one, else the listing one, else a plain SELECT. Every
      bank has a general entry, so a kind missing from a bank gets that entry and the listing
      and plain-SELECT fallbacks are reached only by tables without a bank. */
  function SelectTemplate(table: string, k: Kind, available: seq<string>): (r: string)
    ensures HasBank(table) ==>
      r == (if BankEntry(table, k, available).Some? then BankEntry(table, k, available).value
            else BankEntry(table, General, available).value)
    ensures !HasBank(table) ==> r == "SELECT * FROM " + table + " LIMIT 10"
  {
    EveryBankHasGeneral(table, available);
    match BankEntry(table, k, available)
    case Some(s) => s
    case None =>
      match BankEntry(table, General, available)
      case Some(s) => s
      case None =>
        match BankEntry(table, All, available)
        case Some(s) => s
        case None => "SELECT * FROM " + table + " LIMIT 10"
  }

  /** Add `ORDER BY … DESC` before `LIMIT` to a "top" request whose SQL has no ordering. */
  function TopFixUp(q: string, table: string, sql: string): string {
    if Contains(q, "топ") && !Contains(Upper(sql), "ORDER BY") then
      if table == "production" then
        (if !Contains(sql, "ORDER BY") then Replace(sql, "LIMIT", "ORDER BY revenue DESC LIMIT") else sql)
      else if table == "employees" then
        (if !Contains(sql, "ORDER BY") then Replace(sql, "LIMIT", "ORDER BY performance_score DESC LIMIT") else sql)
      else sql
    else sql
  }

  /** `sql + ';' if not sql.endswith(';') else sql`. */
  function Terminate(sql: string): (r: string)
    ensures EndsWith(r, ";")
  {
    if EndsWith(sql, ";") then sql
    else
      EndsWithSuffix(sql, ";");
      sql + ";"
  }

  /** How Python prints the table name in an f-string (`None` for a missing table). */
  function TableText(table: Option<string>): string {
    if table.Some? then table.value else "None"
  }

  /** `_generate_sql_for_table(query, table)`. */
  function SqlForTable(query: string, table: Option<string>, available: seq<string>): (r: string)
    ensures EndsWith(r, ";")
  {
    var q := Lower(query);
    if table.None? || !HasBank(table.value) then
      assert "SELECT * FROM " + TableText(table) + " LIMIT 10;" == "SELECT * FROM " + TableText(table) + " LIMIT 10" + ";";
      EndsWithSuffix("SELECT * FROM " + TableText(table) + " LIMIT 10", ";");
      "SELECT * FROM " + TableText(table) + " LIMIT 10;"
    else Terminate(TopFixUp(q, table.value, SelectTemplate(table.value, QueryType(q, table.value), available)))
  }

  // ---------------------------------------------------------------------------
  // The classifier's order
  // ---------------------------------------------------------------------------

  /** The first rule at or after `i` that fires decides the kind. */
  lemma {:induction false} FirstFiringAt(q: string, table: string, i: nat, m: nat)
    requires i <= m < |GenericWords| && Fires(q, m)
    requires forall j :: i <= j < m ==> !Fires(q, j)
    ensures FirstFiring(q, table, i) == Some(GenericKind(m, table))
    decreases m - i
  {
    if i < m {
      FirstFiringAt(q, table, i + 1, m);
    }
  }

  /** A kind comes from the first rule that fires; none comes exactly when none fires. */
  lemma {:induction false} FirstFiringMeaning(q: string, table: string, i: nat)
    requires i <= |GenericWords|
    ensures FirstFiring(q, table, i).None? <==> forall j :: i <= j < |GenericWords| ==> !Fires(q, j)
    ensures FirstFiring(q, table, i).Some? ==>
      exists m :: i <= m < |GenericWords| && Fires(q, m) && (forall j :: i <= j < m ==> !Fires(q, j))
        && FirstFiring(q, table, i) == Some(GenericKind(m, table))
    decreases |GenericWords| - i
  {
    if i < |GenericWords| {
      if Fires(q, i) {
        assert FirstFiring(q, table, i) == Some(GenericKind(i, table));
      } else {
        FirstFiringMeaning(q, table, i + 1);
        assert FirstFiring(q, table, i) == FirstFiring(q, table, i + 1);
        if FirstFiring(q, table, i + 1).Some? {
          var m :| i + 1 <= m < |GenericWords| && Fires(q, m) && (forall j :: i + 1 <= j < m ==> !Fires(q, j))
            && FirstFiring(q, table, i + 1) == Some(GenericKind(m, table));
          assert forall j :: i <= j < m ==> !Fires(q, j);
        }
      }
    }
  }

  /** Generic rules never produce a production-only kind nor the general default. */
  lemma GenericKindRange(i: nat, table: string)
    ensures GenericKind(i, table) !in {General, Dynamics, Monthly, Weekly, Daily}
    ensures GenericKind(i, table) !in {Efficiency, ActiveProjects, Sales, Goods, ByDepartment, Cost, Repair, Severity, Unresolved}
  {
  }

  /** For `production`, its own kinds are tried first and win over every generic word. */
  lemma ProductionKindsFirst(q: string)
    requires ProductionKind(q).Some?
    ensures QueryType(q, "production") == ProductionKind(q).value
    ensures QueryType(q, "production") in {Dynamics, Monthly, Weekly, Daily}
  {
  }

  /** Past the production-only tests, the first generic rule that fires decides the kind. */
  lemma QueryTypeGeneric(q: string, table: string, m: nat)
    requires table != "production" || ProductionKind(q).None?
    requires m < |GenericWords| && Fires(q, m)
    requires forall j :: 0 <= j < m ==> !Fires(q, j)
    ensures QueryType(q, table) == GenericKind(m, table)
  {
    FirstFiringAt(q, table, 0, m);
  }

  /** The general kind is the answer exactly when no rule fires. */
  lemma GeneralIff(q: string, table: string)
    ensures QueryType(q, table) == General <==>
      (table != "production" || ProductionKind(q).None?) && forall j :: 0 <= j < |GenericWords| ==> !Fires(q, j)
  {
    FirstFiringMeaning(q, table, 0);
    if FirstFiring(q, table, 0).Some? {
      var m :| 0 <= m < |GenericWords| && FirstFiring(q, table, 0) == Some(GenericKind(m, table));
      GenericKindRange(m, table);
    }
  }

  /** A request with 'топ' gets a production-only kind, 'сколько' or 'топ'. */
  lemma TopRequestKind(q: string, table: string)
    requires Contains(q, "топ")
    ensures QueryType(q, table) in {Dynamics, Monthly, Weekly, Daily, HowMany, Top}
    ensures table != "production" ==> QueryType(q, table) in {HowMany, Top}
  {
    assert GenericWords[1][0] == "топ";
    assert Fires(q, 1);
    if table != "production" || ProductionKind(q).None? {
      if Fires(q, 0) {
        QueryTypeGeneric(q, table, 0);
      } else {
        QueryTypeGeneric(q, table, 1);
      }
    }
  }

  // ---------------------------------------------------------------------------
  // Template selection
  // ---------------------------------------------------------------------------

  /** Every table with a bank has a general entry. */
  lemma EveryBankHasGeneral(table: string, available: seq<string>)
    ensures HasBank(table) ==> BankEntry(table, General, available).Some?
  {
    if table == "production" {
      assert ProductionTemplate(General, available).Some?;
    }
  }

  /** `production` has no weekly, daily or count entry: such requests get its general listing. */
  lemma ProductionMissingKinds(k: Kind, available: seq<string>)
    requires k in {Weekly, Daily, HowMany}
    ensures SelectTemplate("production", k, available) == SelectTemplate("production", General, available)
  {
  }

  // ---------------------------------------------------------------------------
  // The 'топ' fix-up and the terminator
  // ---------------------------------------------------------------------------

  /** The fix-up leaves alone any SQL that already has an ORDER BY. */
  lemma TopFixUpKeepsOrdered(q: string, table: string, sql: string)
    requires Contains(sql, "ORDER BY")
    ensures TopFixUp(q, table, sql) == sql
  {
    UpperContains(sql, "ORDER BY");
    assert Upper("ORDER BY") == "ORDER BY";
  }

  /** The fix-up touches only 'топ' requests on `production` or `employees`. */
  lemma TopFixUpScope(q: string, table: string, sql: string)
    requires !Contains(q, "топ") || (table != "production" && table != "employees")
    ensures TopFixUp(q, table, sql) == sql
  {
  }

  /** Both sales handlers' texts hold an ORDER BY. */
  lemma SalesEntryOrdered(h: SalesPatterns.Handler, q: string, available: seq<string>)
    requires "production" in available
    ensures Contains(SalesPatterns.SalesSql(h, q, available), "ORDER BY")
  {
    SalesPatterns.SalesSqlOrders(h, q, available);
    var p := SalesPatterns.Plan(h, q);
    ContainsAfter("", SalesPatterns.OrderClause(p), "ORDER BY");
    assert "" + SalesPatterns.OrderClause(p) == SalesPatterns.OrderClause(p);
    ContainsTransitive(SalesPatterns.SalesSql(h, q, available), SalesPatterns.OrderClause(p), "ORDER BY");
  }

  /** Every `production` template a 'топ' request can reach holds an ORDER BY. */
  lemma ProductionTopOrdered(k: Kind, available: seq<string>)
    requires "production" in available && k in {Dynamics, Monthly, Weekly, Daily, HowMany, Top}
    ensures Contains(SelectTemplate("production", k, available), "ORDER BY")
  {
    if k == Dynamics {
      SalesEntryOrdered(SalesPatterns.Dynamics, "динамика продаж", available);
    } else if k == Monthly {
      SalesEntryOrdered(SalesPatterns.Monthly, "ежемесячные продажи", available);
    }
  }

  /** Every `employees` template a 'топ' request can reach holds an ORDER BY. */
  lemma EmployeesTopOrdered(k: Kind, available: seq<string>)
    requires k in {HowMany, Top}
    ensures Contains(SelectTemplate("employees", k, available), "ORDER BY")
  {
  }

  /** With this bank the fix-up never changes anything: every template a 'топ' request on
      `production` or `employees` can reach already has an ORDER BY. */
  lemma TopFixUpNeverFires(query: string, table: string, available: seq<string>)
    requires HasBank(table) && (table == "production" ==> "production" in available)
    ensures SqlForTable(query, Some(table), available)
      == Terminate(SelectTemplate(table, QueryType(Lower(query), table), available))
  {
    var q := Lower(query);
    var k := QueryType(q, table);
    var sql := SelectTemplate(table, k, available);
    if Contains(q, "топ") && (table == "production" || table == "employees") {
      TopRequestKind(q, table);
      if table == "production" {
        ProductionTopOrdered(k, available);
      } else {
        EmployeesTopOrdered(k, available);
      }
      TopFixUpKeepsOrdered(q, table, sql);
    } else {
      TopFixUpScope(q, table, sql);
    }
  }

  /** Terminating only ever appends one `;`, and only when the text lacks a final one. */
  lemma TerminateMeaning(sql: string)
    ensures EndsWith(sql, ";") ==> Terminate(sql) == sql
    ensures !EndsWith(sql, ";") ==> Terminate(sql) == sql + ";"
    ensures Terminate(Terminate(sql)) == Terminate(sql)
  {
  }

  /** A table outside the bank, or no table at all, gets the plain ten-row SELECT. */
  lemma NoBankQuery(query: string, table: Option<string>, available: seq<string>)
    requires table.None? || !HasBank(table.value)
    ensures SqlForTable(query, table, available) == "SELECT * FROM " + TableText(table) + " LIMIT 10;"
    ensures table.None? ==> SqlForTable(query, table, available) == "SELECT * FROM None LIMIT 10;"
  {
  }

  /** A text ending in `;` and indentation gets a second `;`. */
  lemma TerminateAfterIndent(sql: string)
    requires EndsWith(sql, ";\n        ")
    ensures EndsWith(Terminate(sql), ";\n        ;")
  {
    EndsWithLastChar(sql, ";\n        ");
    EndsWithLastChar(sql, ";");
    EndsWithExtend(sql, ";\n        ", ";");
    assert ";\n        " + ";" == ";\n        ;";
  }

  /** The dynamics handler's text ends with `;` and its indentation. */
  lemma DynamicsSqlIndented(available: seq<string>)
    requires "production" in available
    ensures EndsWith(SalesPatterns.SalesSql(SalesPatterns.Dynamics, "динамика продаж", available), ";\n        ")
  {
    SalesPatterns.SalesSqlLimits(SalesPatterns.Dynamics, "динамика продаж", available);
    var p := SalesPatterns.Plan(SalesPatterns.Dynamics, "динамика продаж");
    EndsWithOfSuffix(SalesPatterns.SalesSql(SalesPatterns.Dynamics, "динамика продаж", available),
      "LIMIT " + NatText(p.limit), ";\n        ");
  }

  /** A dynamics request that reaches the bank gets the handler's text, which already ends in
      `;` and indentation, plus a second `;`. */
  lemma DoubleTerminator(query: string, available: seq<string>)
    requires "production" in available && QueryType(Lower(query), "production") == Dynamics
    ensures EndsWith(SqlForTable(query, Some("production"), available), ";\n        ;")
  {
    TopFixUpNeverFires(query, "production", available);
    DynamicsSqlIndented(available);
    TerminateAfterIndent(SalesPatterns.SalesSql(SalesPatterns.Dynamics, "динамика продаж", available));
  }
}
