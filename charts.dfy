/** `DashboardVisualizer`'s choice of chart: the query keyword rules, the shape-driven
    auto-detection, the dispatch of `create_visualization` and the chain along which the
    renderers give way to one another. A frame is its columns, each with a name, a dtype
    flag and its cells. Plotly figure building is not modelled: a renderer that gets as far
    as building its figure yields `Drawn`, and `failing` names the renderers whose figure
    building raises. */
module ChartSelector {
  import opened Text

  datatype Chart = Table | Bar | Line | Pie | Histogram | Scatter | Map

  /** The name the source uses for each chart kind. */
  function ChartName(c: Chart): string {
    match c
    case Table => "table"
    case Bar => "bar"
    case Line => "line"
    case Pie => "pie"
    case Histogram => "histogram"
    case Scatter => "scatter"
    case Map => "map"
  }

  // ---------------------------------------------------------------------------
  // determine_visualization_type
  // ---------------------------------------------------------------------------

  datatype ChartRule = ChartRule(words: seq<string>, chart: Chart)

  /** The keyword rules, in the order they are tried. */
  const ChartRules: seq<ChartRule> := [
    ChartRule(["топ", "топ-", "первые", "последние", "лучшие", "худшие", "больше всего"], Bar),
    ChartRule(["тренд", "изменен", "динамика", "истори", "времен", "месяц", "год", "недел", "день"], Line),
    ChartRule(["распределен", "частота", "сколько", "количество", "сколько всего"], Histogram),
    ChartRule(["сравнен", "процент", "доля", "соотношен", "часть", "какой процент"], Pie),
    ChartRule(["корреляц", "зависимос", "связь", "зависит"], Scatter),
    ChartRule(["таблица", "список", "перечень", "все"], Table),
    ChartRule(["карта", "гео", "локац"], Map),
    ChartRule(["выручк", "доход", "прибыль", "бюджет", "зарплат", "стоимость"], Bar)
  ]

  /** The chart of the first rule at or after `i` with a word in `q`; `None` means "choose
      automatically". */
  function FirstChartRule(q: string, rules: seq<ChartRule>, i: nat): Option<Chart>
    requires i <= |rules|
    decreases |rules| - i
  {
    if i == |rules| then None
    else if ContainsAny(q, rules[i].words) then Some(rules[i].chart)
    else FirstChartRule(q, rules, i + 1)
  }

  /** `determine_visualization_type(query)`: automatic choice exactly when no rule has a word
      in the lower-cased query. */
  function QueryChart(query: string): (r: Option<Chart>)
    ensures r.None? <==> forall j :: 0 <= j < |ChartRules| ==> !ContainsAny(Lower(query), ChartRules[j].words)
  {
    FirstChartRuleNone(Lower(query), ChartRules, 0);
    FirstChartRule(Lower(query), ChartRules, 0)
  }

  // ---------------------------------------------------------------------------
  // Frames and _determine_best_chart_type
  // ---------------------------------------------------------------------------

  /** A cell: missing (NaN/None), a number, or any other value by its text. */
  datatype Cell = Missing | Number(n: int) | Text(s: string)

  datatype Column = Column(name: string, numeric: bool, cells: seq<Cell>)

  datatype Frame = Frame(columns: seq<Column>, height: nat)

  /** `df.empty`: no rows or no columns. */
  predicate IsEmpty(f: Frame) {
    f.height == 0 || |f.columns| == 0
  }

  const DateWords: seq<string> := ["date", "дата", "время", "time"]

  datatype ColumnKind = NumericKind | CategoricalKind | DateKind

  predicate IsKind(c: Column, k: ColumnKind) {
    match k
    case NumericKind => c.numeric
    case CategoricalKind => !c.numeric
    case DateKind => ContainsAny(Lower(c.name), DateWords)
  }

  /** The columns of one kind, in frame order (the source's list comprehensions). */
  function Where(cols: seq<Column>, k: ColumnKind): (r: seq<Column>)
    ensures |r| <= |cols|
    ensures forall c :: c in r <==> c in cols && IsKind(c, k)
  {
    if |cols| == 0 then []
    else (if IsKind(cols[0], k) then [cols[0]] else []) + Where(cols[1..], k)
  }

  /** Order is kept: the first column picked is the first column of that kind. */
  lemma {:induction false} WhereFirst(cols: seq<Column>, k: ColumnKind, i: nat)
    requires i < |cols| && IsKind(cols[i], k)
    requires forall j :: 0 <= j < i ==> !IsKind(cols[j], k)
    ensures |Where(cols, k)| > 0 && Where(cols, k)[0] == cols[i]
    decreases i
  {
    if i > 0 {
      assert forall j :: 0 <= j < i - 1 ==> cols[1..][j] == cols[j + 1];
      WhereFirst(cols[1..], k, i - 1);
    }
  }

  /** Picking from two runs of columns picks from the first run, then from the second. */
  lemma {:induction false} WhereAppend(a: seq<Column>, b: seq<Column>, k: ColumnKind)
    ensures Where(a + b, k) == Where(a, k) + Where(b, k)
    decreases |a|
  {
    if |a| == 0 {
      assert a + b == b;
    } else {
      assert (a + b)[1..] == a[1..] + b;
      WhereAppend(a[1..], b, k);
    }
  }

  function NumericCols(f: Frame): seq<Column> { Where(f.columns, NumericKind) }
  function CategoricalCols(f: Frame): seq<Column> { Where(f.columns, CategoricalKind) }
  function DateCols(f: Frame): seq<Column> { Where(f.columns, DateKind) }

  /** `nunique()`: the number of distinct present values. */
  function Distinct(cells: seq<Cell>): nat {
    |set c | c in cells && !c.Missing?|
  }

  /** `_determine_best_chart_type(df)`: a table for an empty frame; never a scatter plot or a
      map; and always a chart whose renderer finds the columns it needs. */
  function BestChart(f: Frame): (r: Chart)
    ensures IsEmpty(f) ==> r == Table
    ensures r in {Table, Line, Pie, Bar, Histogram}
    ensures Fits(r, f)
  {
    var num := NumericCols(f);
    var cat := CategoricalCols(f);
    if IsEmpty(f) then Table
    else if |DateCols(f)| > 0 && |num| > 0 then Line
    else if |cat| > 0 && 2 <= Distinct(cat[0].cells) <= 8 then Pie
    else if |cat| > 0 && |num| > 0 then Bar
    else if |num| > 0 && |cat| == 0 then Histogram
    else Table
  }

  // ---------------------------------------------------------------------------
  // The renderers and their fallbacks
  // ---------------------------------------------------------------------------

  datatype Outcome = Drawn(chart: Chart) | Placeholder(message: string)

  const NoData := "Нет данных для отображения"
  const TableError := "Ошибка создания таблицы"

  /** Position in the fallback order; every fallback edge goes to a lower rank. */
  function Rank(c: Chart): nat {
    match c
    case Table => 0
    case Bar => 1
    case Line => 2
    case Histogram => 2
    case Pie => 3
    case Scatter => 3
    case Map => 4
  }

  /** The columns a renderer needs before it looks at any data. */
  predicate Fits(c: Chart, f: Frame) {
    match c
    case Table => true
    case Bar => |CategoricalCols(f)| > 0 && |NumericCols(f)| > 0
    case Line => |DateCols(f)| > 0 && |NumericCols(f)| > 0
    case Pie => |CategoricalCols(f)| > 0
    case Histogram => |NumericCols(f)| > 0
    case Scatter => |NumericCols(f)| >= 2
    case Map => false
  }

  predicate AnyPresent(cells: seq<Cell>) {
    exists i :: 0 <= i < |cells| && !cells[i].Missing?
  }

  /** Some row has both values present. */
  predicate BothPresent(a: seq<Cell>, b: seq<Cell>) {
    exists i :: 0 <= i < |a| && i < |b| && !a[i].Missing? && !b[i].Missing?
  }

  /** Whether a renderer whose columns fit finds any data to draw. Date parsing is not
      modelled: a present date cell counts as a date. */
  predicate HasData(c: Chart, f: Frame)
    requires Fits(c, f)
  {
    match c
    case Table => true
    case Bar => BothPresent(CategoricalCols(f)[0].cells, NumericCols(f)[0].cells)
    case Line => BothPresent(DateCols(f)[0].cells, NumericCols(f)[0].cells)
    case Pie => AnyPresent(CategoricalCols(f)[0].cells)
    case Histogram => AnyPresent(NumericCols(f)[0].cells)
    case Scatter => AnyPresent(NumericCols(f)[0].cells) && AnyPresent(NumericCols(f)[1].cells)
  }

  /** Where a renderer goes when its columns do not fit: always earlier in the chain. */
  function MissingColumnsFallback(c: Chart): (r: Chart)
    requires c != Table && c != Map
    ensures r != Map && Rank(r) < Rank(c)
  {
    match c
    case Bar => Table
    case Line => Bar
    case Pie => Histogram
    case Histogram => Table
    case Scatter => Histogram
  }

  /** Where a renderer goes when building its figure raises: always earlier in the chain. */
  function FailureFallback(c: Chart): (r: Chart)
    requires c != Table && c != Map
    ensures r != Map && Rank(r) < Rank(c)
  {
    if c == Bar then Table else Bar
  }

  /** `_create_table`, `_create_bar_chart`, … with their fallback calls. Whatever is drawn has
      the columns it needs and data to show, did not fail, and is no later in the chain. */
  function Render(c: Chart, f: Frame, failing: set<Chart>): (r: Outcome)
    requires c != Map
    ensures r.Drawn? ==> r.chart != Map && Rank(r.chart) <= Rank(c) && r.chart !in failing
    ensures r.Drawn? ==> Fits(r.chart, f) && HasData(r.chart, f)
    ensures r.Placeholder? ==> r.message == NoData || (r.message == TableError && Table in failing)
    decreases Rank(c)
  {
    if c == Table then
      if Table in failing then Placeholder(TableError) else Drawn(Table)
    else if !Fits(c, f) then Render(MissingColumnsFallback(c), f, failing)
    else if !HasData(c, f) then Placeholder(NoData)
    else if c in failing then Render(FailureFallback(c), f, failing)
    else Drawn(c)
  }

  /** `_create_auto_chart`: what it draws is never a scatter plot or a map, did not fail, and
      has its columns and data; a placeholder is the no-data one or the table's error. */
  function AutoChart(f: Frame, failing: set<Chart>): (r: Outcome)
    ensures r.Drawn? ==> r.chart != Scatter && r.chart != Map && r.chart !in failing
    ensures r.Drawn? ==> Fits(r.chart, f) && HasData(r.chart, f)
    ensures r.Placeholder? ==> r.message == NoData || (r.message == TableError && Table in failing)
  {
    var c := BestChart(f);
    Render(if c in {Bar, Line, Pie, Histogram, Scatter} then c else Table, f, failing)
  }

  /** `create_visualization(df, chart_type)`; `None` and "auto" ask for auto-detection. An
      empty frame gets the no-data placeholder; anything drawn is never a map, did not fail,
      and has its columns and data. */
  function Visualize(f: Frame, requested: Option<string>, failing: set<Chart>): (r: Outcome)
    ensures IsEmpty(f) ==> r == Placeholder(NoData)
    ensures r.Drawn? ==> r.chart != Map && r.chart !in failing && Fits(r.chart, f) && HasData(r.chart, f)
    ensures r.Placeholder? ==> r.message == NoData || (r.message == TableError && Table in failing)
  {
    if IsEmpty(f) then Placeholder(NoData)
    else
      var name := if requested.None? || requested.value == "auto" then ChartName(BestChart(f)) else requested.value;
      if name == "table" then Render(Table, f, failing)
      else if name == "bar" then Render(Bar, f, failing)
      else if name == "line" then Render(Line, f, failing)
      else if name == "pie" then Render(Pie, f, failing)
      else if name == "histogram" then Render(Histogram, f, failing)
      else if name == "scatter" then Render(Scatter, f, failing)
      else AutoChart(f, failing)
  }

  // ---------------------------------------------------------------------------
  // Properties
  // ---------------------------------------------------------------------------

  /** The first rule with a word in the text decides; no rule means automatic choice. */
  lemma {:induction false} FirstChartRuleAt(q: string, rules: seq<ChartRule>, i: nat, m: nat)
    requires i <= m < |rules| && ContainsAny(q, rules[m].words)
    requires forall j :: i <= j < m ==> !ContainsAny(q, rules[j].words)
    ensures FirstChartRule(q, rules, i) == Some(rules[m].chart)
    decreases m - i
  {
    if i < m {
      FirstChartRuleAt(q, rules, i + 1, m);
    }
  }

  /** No chart is proposed exactly when no rule has a word in the text. */
  lemma {:induction false} FirstChartRuleNone(q: string, rules: seq<ChartRule>, i: nat)
    requires i <= |rules|
    ensures FirstChartRule(q, rules, i).None? <==> forall j :: i <= j < |rules| ==> !ContainsAny(q, rules[j].words)
    decreases |rules| - i
  {
    if i < |rules| && !ContainsAny(q, rules[i].words) {
      FirstChartRuleNone(q, rules, i + 1);
    }
  }

  /** Ranking words win over everything else, so 'топ' with 'месяц' gives a bar chart. */
  lemma RankingWins(query: string)
    requires Contains(Lower(query), "топ")
    ensures QueryChart(query) == Some(Bar)
  {
    assert ChartRules[0].words[0] == "топ";
  }

  /** Without ranking words, a temporal word gives a line chart. */
  lemma TemporalIsLine(query: string, w: nat)
    requires !ContainsAny(Lower(query), ChartRules[0].words)
    requires w < |ChartRules[1].words| && Contains(Lower(query), ChartRules[1].words[w])
    ensures QueryChart(query) == Some(Line)
  {
    FirstChartRuleAt(Lower(query), ChartRules, 0, 1);
  }

  /** The query rules pick only the charts the renderers draw, the map, or nothing. */
  lemma QueryChartNeverUnknown(query: string)
    ensures QueryChart(query).Some? ==> QueryChart(query).value in {Bar, Line, Histogram, Pie, Scatter, Table, Map}
  {
  }

  /** A chart whose columns fit and that has data is drawn as asked unless it fails. */
  lemma RenderDirect(c: Chart, f: Frame, failing: set<Chart>)
    requires c != Map && c != Table && Fits(c, f) && HasData(c, f) && c !in failing
    ensures Render(c, f, failing) == Drawn(c)
  {
  }

  /** The table is always the last resort: with the table working, the outcome is a drawn
      chart or the no-data placeholder. */
  lemma RenderWithWorkingTable(c: Chart, f: Frame, failing: set<Chart>)
    requires c != Map && Table !in failing
    ensures Render(c, f, failing).Drawn? || Render(c, f, failing) == Placeholder(NoData)
  {
  }

  /** An unknown chart name, such as "map", goes to auto-detection, as does "auto". */
  lemma UnknownNameIsAuto(f: Frame, name: string, failing: set<Chart>)
    requires !IsEmpty(f)
    requires name !in {"table", "bar", "line", "pie", "histogram", "scatter"}
    ensures Visualize(f, Some(name), failing) == AutoChart(f, failing)
    ensures Visualize(f, Some("auto"), failing) == Visualize(f, None, failing)
  {
  }

  /** Asking for auto-detection draws the detected chart itself when it has data and works. */
  lemma AutoDrawsDetected(f: Frame, failing: set<Chart>)
    requires !IsEmpty(f) && BestChart(f) != Table
    requires HasDataAt(f) && BestChart(f) !in failing
    ensures Visualize(f, None, failing) == Drawn(BestChart(f))
  {
  }

  /** The detected chart has data to show. */
  predicate HasDataAt(f: Frame) {
    Fits(BestChart(f), f) && HasData(BestChart(f), f)
  }
}
