/** The checks and small builders of the web app around the query engine: the rejection of
    blank input, the dangerous-keyword guard in front of SQL execution, the capped
    conversation history kept in the session, and the department and period filters of
    generated reports. */
module AppGuards {
  import opened Text

  // ---------------------------------------------------------------------------
  // Blank input
  // ---------------------------------------------------------------------------

  /** What a request handler does with its text field. */
  datatype Admission = Refused(error: string) | Taken(text: string)

  const EmptyQueryError := "Запрос не может быть пустым"
  const EmptySqlError := "SQL запрос не может быть пустым"

  /** `value.strip()` and the `if not value:` rejection, with the handler's message. */
  function Admit(raw: string, error: string): (r: Admission)
    ensures r.Refused? <==> AllSpace(raw)
    ensures r.Refused? ==> r.error == error
    ensures r.Taken? ==> r.text == Strip(raw) && r.text != "" && Trimmed(r.text) && Contains(raw, r.text)
  {
    StripEmptyIff(raw);
    StripShape(raw);
    var text := Strip(raw);
    if text == "" then Refused(error) else Taken(text)
  }

  // ---------------------------------------------------------------------------
  // The dangerous-keyword guard of execute_sql
  // ---------------------------------------------------------------------------

  const DangerousKeywords: seq<string> := ["DROP", "DELETE", "UPDATE", "INSERT", "ALTER", "TRUNCATE"]

  /** The two positions the guard looks at: the keyword between spaces, or at the very start. */
  predicate Offends(sqlUpper: string, keyword: string) {
    Contains(sqlUpper, " " + keyword + " ") || StartsWith(sqlUpper, keyword)
  }

  /** The first keyword from `i` on that offends. */
  function FirstOffending(sqlUpper: string, keywords: seq<string>, i: nat): (r: Option<string>)
    ensures r.Some? ==> r.value in keywords && Offends(sqlUpper, r.value)
    decreases |keywords| - i
  {
    if i >= |keywords| then None
    else if Offends(sqlUpper, keywords[i]) then Some(keywords[i])
    else FirstOffending(sqlUpper, keywords, i + 1)
  }

  /** What `execute_sql` decides before touching the database. */
  datatype SqlCheck = EmptySql | Forbidden(keyword: string) | Permitted(sql: string)

  function SqlGuard(raw: string): (r: SqlCheck)
    ensures r == EmptySql <==> Strip(raw) == ""
    ensures r.Permitted? ==> r.sql == Strip(raw)
    ensures r.Forbidden? ==> r.keyword in DangerousKeywords && Offends(Upper(Strip(raw)), r.keyword)
  {
    var sql := Strip(raw);
    if sql == "" then EmptySql
    else
      match FirstOffending(Upper(sql), DangerousKeywords, 0)
      case Some(k) => Forbidden(k)
      case None => Permitted(sql)
  }

  /** The message of a refusal (the 400 and 403 answers). */
  function GuardError(c: SqlCheck): (r: string)
    ensures r == "" <==> c.Permitted?
    ensures c.Forbidden? ==> Contains(r, c.keyword)
  {
    match c
    case EmptySql => EmptySqlError
    case Forbidden(k) => Around("Операция ", k, " не разрешена для безопасности данных")
    case Permitted(_) => ""
  }

  /** The checks of `execute_sql`, with the loop that returns at the first offending keyword. */
  method CheckSql(raw: string) returns (r: SqlCheck)
    ensures r == SqlGuard(raw)
  {
    var sql := Strip(raw);
    if sql == "" {
      return EmptySql;
    }
    var sqlUpper := Upper(sql);
    var i := 0;
    while i < |DangerousKeywords|
      invariant 0 <= i <= |DangerousKeywords|
      invariant FirstOffending(sqlUpper, DangerousKeywords, 0) == FirstOffending(sqlUpper, DangerousKeywords, i)
    {
      var keyword := DangerousKeywords[i];
      if Contains(sqlUpper, " " + keyword + " ") || StartsWith(sqlUpper, keyword) {
        return Forbidden(keyword);
      }
      i := i + 1;
    }
    r := Permitted(sql);
  }

  /** The first offending keyword is reported. */
  lemma {:induction false} FirstOffendingAt(u: string, keywords: seq<string>, i: nat, m: nat)
    requires i <= m < |keywords| && Offends(u, keywords[m])
    requires forall j :: i <= j < m ==> !Offends(u, keywords[j])
    ensures FirstOffending(u, keywords, i) == Some(keywords[m])
    decreases m - i
  {
    if i < m {
      FirstOffendingAt(u, keywords, i + 1, m);
    }
  }

  /** A reported keyword offends and no keyword before it does; nothing is reported exactly
      when no keyword offends. */
  lemma {:induction false} FirstOffendingMeaning(u: string, keywords: seq<string>, i: nat)
    requires i <= |keywords|
    ensures FirstOffending(u, keywords, i).None? <==> forall j :: i <= j < |keywords| ==> !Offends(u, keywords[j])
    ensures FirstOffending(u, keywords, i).Some? ==>
      exists m :: i <= m < |keywords| && keywords[m] == FirstOffending(u, keywords, i).value
        && Offends(u, keywords[m]) && forall j :: i <= j < m ==> !Offends(u, keywords[j])
    decreases |keywords| - i
  {
    if i < |keywords| && !Offends(u, keywords[i]) {
      FirstOffendingMeaning(u, keywords, i + 1);
      var r := FirstOffending(u, keywords, i);
      if r.Some? {
        var m :| i + 1 <= m < |keywords| && keywords[m] == r.value
          && Offends(u, keywords[m]) && forall j :: i + 1 <= j < m ==> !Offends(u, keywords[j]);
        assert i <= m;
      }
    }
  }

  /** A statement runs exactly when it is not blank and no dangerous keyword stands between
      spaces or at the start of its upper-cased text; these two positions are the only ones
      looked at, so a keyword right after ';' or a newline is let through. */
  lemma PermittedIff(raw: string)
    ensures SqlGuard(raw).Permitted? <==>
      Strip(raw) != "" && forall j :: 0 <= j < |DangerousKeywords| ==>
        !Contains(Upper(Strip(raw)), " " + DangerousKeywords[j] + " ")
        && !StartsWith(Upper(Strip(raw)), DangerousKeywords[j])
    ensures SqlGuard(raw).Permitted? ==> SqlGuard(raw).sql == Strip(raw)
  {
    FirstOffendingMeaning(Upper(Strip(raw)), DangerousKeywords, 0);
  }

  /** A refused statement names the first keyword of the list that offends it. */
  lemma ForbiddenMeaning(raw: string)
    requires SqlGuard(raw).Forbidden?
    ensures exists m :: (0 <= m < |DangerousKeywords| && DangerousKeywords[m] == SqlGuard(raw).keyword
      && Offends(Upper(Strip(raw)), DangerousKeywords[m])
      && forall j :: 0 <= j < m ==> !Offends(Upper(Strip(raw)), DangerousKeywords[j]))
  {
    FirstOffendingMeaning(Upper(Strip(raw)), DangerousKeywords, 0);
  }

  /** Letter case does not matter: a statement that starts with a dangerous keyword in any
      letter case is refused. */
  lemma StartingKeywordRefused(raw: string, m: nat)
    requires m < |DangerousKeywords| && Strip(raw) != ""
    requires StartsWith(Upper(Strip(raw)), DangerousKeywords[m])
    ensures SqlGuard(raw).Forbidden?
  {
    FirstOffendingMeaning(Upper(Strip(raw)), DangerousKeywords, 0);
  }

  // ---------------------------------------------------------------------------
  // The conversation history of chat_with_data
  // ---------------------------------------------------------------------------

  /** One remembered exchange; the timestamp is the clock's reading, passed in. */
  datatype Exchange = Exchange(user: string, sql: string, timestamp: string, rowCount: nat)

  const HistoryLimit := 20

  /** `history[-20:]` once it is longer than 20, else the history itself. */
  function Capped<T>(history: seq<T>): (r: seq<T>)
    ensures |r| == if |history| > HistoryLimit then HistoryLimit else |history|
    ensures r == history[|history| - |r|..]
  {
    if |history| > HistoryLimit then history[|history| - HistoryLimit..] else history
  }

  /** `session['conversation']`. */
  class Conversation {
    var entries: seq<Exchange>

    predicate Valid()
      reads this
    {
      |entries| <= HistoryLimit
    }

    /** The list created when the session has none. */
    constructor ()
      ensures entries == [] && Valid()
    {
      entries := [];
    }

    /** Append the new exchange, then keep only the last twenty. */
    method Record(e: Exchange)
      modifies this
      ensures entries == Capped(old(entries) + [e])
      ensures Valid()
    {
      entries := entries + [e];
      if |entries| > HistoryLimit {
        entries := entries[|entries| - HistoryLimit..];
      }
    }
  }

  /** The capped history holds at most twenty entries, ends with the newest one, keeps the
      latest entries in order, and drops nothing while there is room. */
  lemma CappedShape<T>(history: seq<T>, e: T)
    ensures var r := Capped(history + [e]);
      |r| <= HistoryLimit && |r| > 0 && r[|r| - 1] == e
      && (|history| < HistoryLimit ==> r == history + [e])
      && (|history| >= HistoryLimit ==> |r| == HistoryLimit && r[..HistoryLimit - 1] == history[|history| - (HistoryLimit - 1)..])
  {
    var h := history + [e];
    if |h| > HistoryLimit {
      assert h[|h| - HistoryLimit..][..HistoryLimit - 1] == history[|history| - (HistoryLimit - 1)..];
    }
  }

  /** Capping twice is capping once. */
  lemma CappedIdempotent<T>(history: seq<T>)
    ensures Capped(Capped(history)) == Capped(history)
  {
  }

  // ---------------------------------------------------------------------------
  // The filters of generate_real_report
  // ---------------------------------------------------------------------------

  /** `','.join(['?' for _ in departments])`. */
  function Placeholders(n: nat): string {
    Join(seq(n, _ => "?"), ",")
  }

  /** The `WHERE` conditions and their parameters, built by appending. */
  method DepartmentFilter(departments: seq<string>) returns (whereConditions: seq<string>, params: seq<string>)
    ensures |departments| > 0 && "all" !in departments ==>
      whereConditions == ["department IN (" + Placeholders(|departments|) + ")"] && params == departments
    ensures |departments| == 0 || "all" in departments ==> whereConditions == [] && params == []
  {
    whereConditions := [];
    params := [];
    if |departments| > 0 && "all" !in departments {
      var placeholders := Placeholders(|departments|);
      whereConditions := whereConditions + ["department IN (" + placeholders + ")"];
      params := params + departments;
    }
  }

  /** One '?' per department, separated by commas. */
  lemma {:induction false} PlaceholderCount(n: nat)
    ensures CountChar(Placeholders(n), '?') == n
    ensures |Placeholders(n)| == if n == 0 then 0 else 2 * n - 1
    decreases n
  {
    if n > 1 {
      var marks := seq(n, _ => "?");
      PlaceholderCount(n - 1);
      assert marks[1..] == seq(n - 1, _ => "?");
      assert Placeholders(n) == "?" + "," + Placeholders(n - 1);
      CountCharAppend("?,", Placeholders(n - 1), '?');
      assert "?" + "," + Placeholders(n - 1) == "?," + Placeholders(n - 1);
    } else if n == 1 {
      assert Placeholders(1) == "?";
    }
  }

  /** A department condition has as many placeholders as parameters. */
  lemma FilterPlaceholdersMatch(departments: seq<string>)
    requires |departments| > 0
    ensures CountChar("department IN (" + Placeholders(|departments|) + ")", '?') == |departments|
  {
    PlaceholderCount(|departments|);
    CountCharAppend("department IN (", Placeholders(|departments|), '?');
    CountCharAppend("department IN (" + Placeholders(|departments|), ")", '?');
    ConditionTextsUnmarked();
  }

  /** The fixed parts of the condition hold no '?'. */
  lemma ConditionTextsUnmarked()
    ensures CountChar("department IN (", '?') == 0 && CountChar(")", '?') == 0
  {
    CountCharAbsent("department IN (", '?');
    CountCharAbsent(")", '?');
  }

  /** A text without `c` counts none. */
  lemma {:induction false} CountCharAbsent(s: string, c: char)
    requires forall k :: 0 <= k < |s| ==> s[k] != c
    ensures CountChar(s, c) == 0
    decreases |s|
  {
    if |s| > 0 {
      CountCharAbsent(s[1..], c);
    }
  }

  /** The date condition of a reporting period. */
  function PeriodFilter(period: string): (r: string)
    ensures r != "" <==> period == "month" || period == "quarter" || period == "year"
    ensures period == "month" ==> Contains(r, "'-1 month'")
    ensures period == "quarter" ==> Contains(r, "'-3 months'")
    ensures period == "year" ==> Contains(r, "'-1 year'")
  {
    if period == "month" then Around("date >= date('now', ", "'-1 month'", ")")
    else if period == "quarter" then Around("date >= date('now', ", "'-3 months'", ")")
    else if period == "year" then Around("date >= date('now', ", "'-1 year'", ")")
    else ""
  }
}
