/** `_determine_target_table`: a weighted keyword score picks the table a request is about.
    Tables are visited in declaration order; unavailable ones are skipped; a strictly higher
    score replaces the current best, so the earliest table wins a tie.  A best score of zero
    falls through to a heuristic pass. */
module TableResolver {
  import opened Text

  datatype TableRule = TableRule(table: string, keywords: seq<string>)

  /** The keyword map, in declaration order. */
  const TableRules: seq<TableRule> := [
    TableRule("employees",
      ["сотрудник", "employee", "работник", "персонал", "зарплат", "salary",
       "должность", "position", "отдел", "department", "эффективность",
       "performance", "прием", "hire", "устроился"]),
    TableRule("projects",
      ["проект", "project", "бюджет", "budget", "статус", "status",
       "начало", "start", "окончание", "end", "руководитель", "manager",
       "планирование", "planning", "завершен", "completed"]),
    TableRule("production",
      ["продаж", "sale", "production", "производств", "товар", "product",
       "выручк", "revenue", "доход", "income", "количество", "quantity",
       "топ", "top", "лучш", "лидер", "продукт", "товарооборот",
       "динамик", "тренд", "график", "изменени", "период", "год", "месяц", "недел", "день"]),
    TableRule("equipment",
      ["оборудован", "equipment", "техника", "машина", "стоимость", "cost",
       "покупк", "purchase", "обслуживан", "maintenance", "тип", "type",
       "исправно", "working", "ремонт", "repair"]),
    TableRule("safety_incidents",
      ["инцидент", "incident", "безопасность", "safety", "авария",
       "происшествие", "серьезность", "severity", "решен", "resolved",
       "время решения", "resolution time", "описание", "description"])
  ]

  /** Words that earn `production` its +5 bonus. */
  const TemporalWords: seq<string> := ["динамик", "тренд", "график", "год", "месяц", "недел", "день"]

  /** How many of `kws` occur in `q` (each keyword counts once). */
  function KeywordHits(q: string, kws: seq<string>): nat {
    if kws == [] then 0
    else (if Contains(q, kws[0]) then 1 else 0) + KeywordHits(q, kws[1..])
  }

  /** The extra points `production` gets for temporal, ranking and sales words. */
  function Bonus(table: string, q: string): nat {
    if table != "production" then 0
    else
      (if ContainsAny(q, TemporalWords) then 5 else 0)
      + (if Contains(q, "топ") then 3 else 0)
      + (if Contains(q, "выручк") || Contains(q, "продаж") then 2 else 0)
  }

  function Score(rule: TableRule, q: string): nat {
    KeywordHits(q, rule.keywords) + Bonus(rule.table, q)
  }

  /** A table is a candidate when it is available. */
  predicate Candidate(j: int, available: seq<string>)
    requires 0 <= j < |TableRules|
  {
    TableRules[j].table in available
  }

  /** The best table and score after visiting the first `n` rules. */
  function Best(q: string, available: seq<string>, n: nat): (Option<string>, nat)
    requires n <= |TableRules|
  {
    if n == 0 then (None, 0)
    else
      var prev := Best(q, available, n - 1);
      var rule := TableRules[n - 1];
      if rule.table !in available then prev
      else if Score(rule, q) > prev.1 then (Some(rule.table), Score(rule, q))
      else prev
  }

  /** The heuristic pass, tried only when no table scored. */
  function Heuristic(q: string, available: seq<string>): (r: Option<string>)
    ensures r.Some? ==> r.value in available
  {
    if Contains(q, "сотрудник") || Contains(q, "employee") then
      (if "employees" in available then Some("employees") else None)
    else if Contains(q, "проект") || Contains(q, "project") then
      (if "projects" in available then Some("projects") else None)
    else if Contains(q, "продаж") || Contains(q, "товар") || Contains(q, "топ") then
      (if "production" in available then Some("production") else None)
    else if Contains(q, "оборудован") then
      (if "equipment" in available then Some("equipment") else None)
    else if Contains(q, "инцидент") || Contains(q, "безопасность") then
      (if "safety_incidents" in available then Some("safety_incidents") else None)
    else None
  }

  /** The table `_determine_target_table` names for `query`. */
  function TargetTable(query: string, available: seq<string>): (r: Option<string>)
    ensures r.Some? ==> r.value in available
  {
    var q := Lower(query);
    BestIsCandidate(q, available, |TableRules|);
    var best := Best(q, available, |TableRules|);
    if best.1 >= 1 then best.0 else Heuristic(q, available)
  }

  /** The scoring loop, as the source writes it. */
  method DetermineTargetTable(query: string, available: seq<string>) returns (r: Option<string>)
    ensures r == TargetTable(query, available)
  {
    var q := Lower(query);
    var bestTable: Option<string> := None;
    var bestScore: nat := 0;
    var i := 0;
    while i < |TableRules|
      invariant 0 <= i <= |TableRules|
      invariant (bestTable, bestScore) == Best(q, available, i)
    {
      var rule := TableRules[i];
      if rule.table in available {
        var score := Score(rule, q);
        if score > bestScore {
          bestScore := score;
          bestTable := Some(rule.table);
        }
      }
      i := i + 1;
    }
    if bestScore >= 1 {
      return bestTable;
    }
    r := Heuristic(q, available);
  }

  // ---------------------------------------------------------------------------
  // Keyword counting
  // ---------------------------------------------------------------------------

  /** Nothing scores exactly when no keyword occurs. */
  lemma {:induction false} HitsZeroIff(q: string, kws: seq<string>)
    ensures KeywordHits(q, kws) == 0 <==> forall k :: 0 <= k < |kws| ==> !Contains(q, kws[k])
  {
    if kws != [] {
      HitsZeroIff(q, kws[1..]);
      assert forall k :: 1 <= k < |kws| ==> kws[k] == kws[1..][k - 1];
    }
  }

  /** The count never exceeds the number of keywords. */
  lemma {:induction false} HitsBounded(q: string, kws: seq<string>)
    ensures KeywordHits(q, kws) <= |kws|
  {
    if kws != [] {
      HitsBounded(q, kws[1..]);
    }
  }

  // ---------------------------------------------------------------------------
  // The scoring loop
  // ---------------------------------------------------------------------------

  /** The best so far is either nothing with score zero, or an available table with its own score. */
  lemma {:induction false} BestIsCandidate(q: string, available: seq<string>, n: nat)
    requires n <= |TableRules|
    ensures Best(q, available, n).0.None? ==> Best(q, available, n).1 == 0
    ensures Best(q, available, n).0.Some? ==>
      exists j :: 0 <= j < n && Candidate(j, available) && TableRules[j].table == Best(q, available, n).0.value
        && Score(TableRules[j], q) == Best(q, available, n).1 && Best(q, available, n).1 > 0
  {
    if n > 0 {
      BestIsCandidate(q, available, n - 1);
    }
  }

  /** No visited candidate scores more than the best. */
  lemma {:induction false} BestIsMaximal(q: string, available: seq<string>, n: nat)
    requires n <= |TableRules|
    ensures forall j :: 0 <= j < n && Candidate(j, available) ==> Score(TableRules[j], q) <= Best(q, available, n).1
  {
    if n > 0 {
      BestIsMaximal(q, available, n - 1);
    }
  }

  /** The best score only grows as rules are visited. */
  lemma {:induction false} BestMonotone(q: string, available: seq<string>, m: nat, n: nat)
    requires m <= n <= |TableRules|
    ensures Best(q, available, m).1 <= Best(q, available, n).1
  {
    if m < n {
      BestMonotone(q, available, m, n - 1);
    }
  }

  /** Once a table holds the best score, no later candidate scoring at most that replaces it. */
  lemma {:induction false} BestStays(q: string, available: seq<string>, m: nat, n: nat)
    requires m < n <= |TableRules|
    requires Best(q, available, m + 1).0.Some?
    requires forall j :: m < j < n && Candidate(j, available) ==> Score(TableRules[j], q) <= Best(q, available, m + 1).1
    ensures Best(q, available, n) == Best(q, available, m + 1)
  {
    if n > m + 1 {
      BestStays(q, available, m, n - 1);
    }
  }

  /** The first candidate reaching the best score keeps its place against every later tie. */
  lemma BestIsEarliest(q: string, available: seq<string>, n: nat, m: nat)
    requires m < n <= |TableRules|
    requires Candidate(m, available) && Score(TableRules[m], q) == Best(q, available, n).1 && Score(TableRules[m], q) > 0
    requires forall j :: 0 <= j < m && Candidate(j, available) ==> Score(TableRules[j], q) < Score(TableRules[m], q)
    ensures Best(q, available, n).0 == Some(TableRules[m].table)
  {
    BestAt(q, available, m);
    BestIsMaximal(q, available, n);
    BestStays(q, available, m, n);
  }

  /** Right after visiting the first candidate with a given best score, it is the best. */
  lemma BestAt(q: string, available: seq<string>, m: nat)
    requires m < |TableRules| && Candidate(m, available) && Score(TableRules[m], q) > 0
    requires forall j :: 0 <= j < m && Candidate(j, available) ==> Score(TableRules[j], q) < Score(TableRules[m], q)
    ensures Best(q, available, m + 1) == (Some(TableRules[m].table), Score(TableRules[m], q))
  {
    BestIsCandidate(q, available, m);
  }

  /** A later table that only ties the best never replaces it. */
  lemma {:induction false} TieKeepsBest(q: string, available: seq<string>, n: nat)
    requires 0 < n <= |TableRules| && Candidate(n - 1, available)
    requires Score(TableRules[n - 1], q) == Best(q, available, n - 1).1
    ensures Best(q, available, n) == Best(q, available, n - 1)
  {
  }

  // ---------------------------------------------------------------------------
  // The resolver's result
  // ---------------------------------------------------------------------------

  /** A table that scored nothing contains none of its keywords. */
  lemma ZeroScoreMisses(q: string, j: nat, k: nat)
    requires j < |TableRules| && k < |TableRules[j].keywords| && Score(TableRules[j], q) == 0
    ensures !Contains(q, TableRules[j].keywords[k])
  {
    HitsZeroIff(q, TableRules[j].keywords);
  }

  lemma HeuristicMissesEmployees(q: string)
    requires Score(TableRules[0], q) == 0
    ensures !(Contains(q, "сотрудник") || Contains(q, "employee"))
  {
    ZeroScoreMisses(q, 0, 0);
    ZeroScoreMisses(q, 0, 1);
    assert TableRules[0].keywords[0] == "сотрудник" && TableRules[0].keywords[1] == "employee";
  }

  lemma HeuristicMissesProjects(q: string)
    requires Score(TableRules[1], q) == 0
    ensures !(Contains(q, "проект") || Contains(q, "project"))
  {
    ZeroScoreMisses(q, 1, 0);
    ZeroScoreMisses(q, 1, 1);
    assert TableRules[1].keywords[0] == "проект" && TableRules[1].keywords[1] == "project";
  }

  lemma HeuristicMissesProduction(q: string)
    requires Score(TableRules[2], q) == 0
    ensures !(Contains(q, "продаж") || Contains(q, "товар") || Contains(q, "топ"))
  {
    ZeroScoreMisses(q, 2, 0);
    ZeroScoreMisses(q, 2, 4);
    ZeroScoreMisses(q, 2, 12);
    assert TableRules[2].keywords[0] == "продаж" && TableRules[2].keywords[4] == "товар" && TableRules[2].keywords[12] == "топ";
  }

  lemma HeuristicMissesEquipment(q: string)
    requires Score(TableRules[3], q) == 0
    ensures !(Contains(q, "оборудован"))
  {
    ZeroScoreMisses(q, 3, 0);
    assert TableRules[3].keywords[0] == "оборудован";
  }

  lemma HeuristicMissesSafetyIncidents(q: string)
    requires Score(TableRules[4], q) == 0
    ensures !(Contains(q, "инцидент") || Contains(q, "безопасность"))
  {
    ZeroScoreMisses(q, 4, 0);
    ZeroScoreMisses(q, 4, 2);
    assert TableRules[4].keywords[0] == "инцидент" && TableRules[4].keywords[2] == "безопасность";
  }

  /** Every heuristic word is also a keyword of the table it names: once no table scored,
      the heuristic pass can only answer None. */
  lemma HeuristicNeverPicks(q: string, available: seq<string>)
    requires Best(q, available, |TableRules|).1 == 0
    ensures Heuristic(q, available) == None
  {
    BestIsMaximal(q, available, |TableRules|);
    if Candidate(0, available) {
      HeuristicMissesEmployees(q);
    }
    if Candidate(1, available) {
      HeuristicMissesProjects(q);
    }
    if Candidate(2, available) {
      HeuristicMissesProduction(q);
    }
    if Candidate(3, available) {
      HeuristicMissesEquipment(q);
    }
    if Candidate(4, available) {
      HeuristicMissesSafetyIncidents(q);
    }
  }

  /** The resolver answers None exactly when no available table scores. */
  lemma TargetNoneIff(query: string, available: seq<string>)
    ensures TargetTable(query, available).None? <==>
      forall j :: 0 <= j < |TableRules| && Candidate(j, available) ==> Score(TableRules[j], Lower(query)) == 0
  {
    var q := Lower(query);
    BestIsCandidate(q, available, |TableRules|);
    BestIsMaximal(q, available, |TableRules|);
    if Best(q, available, |TableRules|).1 == 0 {
      HeuristicNeverPicks(q, available);
    }
  }

  /** The resolver names the earliest available table with the highest score. */
  lemma TargetIsEarliestBest(query: string, available: seq<string>, m: nat)
    requires m < |TableRules| && Candidate(m, available) && Score(TableRules[m], Lower(query)) > 0
    requires forall j :: 0 <= j < |TableRules| && Candidate(j, available) ==> Score(TableRules[j], Lower(query)) <= Score(TableRules[m], Lower(query))
    requires forall j :: 0 <= j < m && Candidate(j, available) ==> Score(TableRules[j], Lower(query)) < Score(TableRules[m], Lower(query))
    ensures TargetTable(query, available) == Some(TableRules[m].table)
  {
    var q := Lower(query);
    BestIsCandidate(q, available, |TableRules|);
    BestIsMaximal(q, available, |TableRules|);
    BestIsEarliest(q, available, |TableRules|, m);
  }

  /** A named table has the top score among the available tables. */
  lemma TargetIsMaximal(query: string, available: seq<string>, j: nat)
    requires j < |TableRules| && Candidate(j, available)
    requires TargetTable(query, available).Some?
    ensures exists m :: (0 <= m < |TableRules| && TableRules[m].table == TargetTable(query, available).value
      && Score(TableRules[j], Lower(query)) <= Score(TableRules[m], Lower(query)))
  {
    var q := Lower(query);
    BestIsCandidate(q, available, |TableRules|);
    BestIsMaximal(q, available, |TableRules|);
    if Best(q, available, |TableRules|).1 == 0 {
      HeuristicNeverPicks(q, available);
    }
  }
}
