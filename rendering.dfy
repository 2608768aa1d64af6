/** The data shaping inside the chart renderers: the table's cell texts, the bar chart's
    pair cleaning and top-ten filter, the pie chart's folding of small slices into
    "Другие", and the column-name translation. Numbers are integers here. */
module ChartRendering {
  import opened Text
  import opened ChartSelector

  /** Python's `str(n)` for an integer. */
  function IntText(n: int): string {
    if n >= 0 then NatText(n) else "-" + NatText(-n)
  }

  /** `str(val)` of a present cell. */
  function Shown(c: Cell): string {
    match c
    case Missing => ""
    case Number(n) => IntText(n)
    case Text(s) => s
  }

  // ---------------------------------------------------------------------------
  // _create_table
  // ---------------------------------------------------------------------------

  /** A table cell: '' for a missing value, else the text cut to 50 characters plus '...'. */
  function CellText(c: Cell): (r: string)
    ensures |r| <= 53
    ensures c.Missing? ==> r == ""
    ensures !c.Missing? && |Shown(c)| <= 50 ==> r == Shown(c)
    ensures !c.Missing? && |Shown(c)| > 50 ==> |r| == 53 && r[..50] == Shown(c)[..50] && r[50..] == "..."
  {
    if c.Missing? then ""
    else
      var s := Shown(c);
      if |s| > 50 then s[..50] + "..." else s
  }

  /** The shown column: every cell rendered by `CellText`. */
  function CellColumn(cells: seq<Cell>): (r: seq<string>)
    ensures |r| == |cells|
  {
    seq(|cells|, j requires 0 <= j < |cells| => CellText(cells[j]))
  }

  /** `cell_values`, filled column by column and cell by cell. */
  method TableCells(cols: seq<Column>) returns (cellValues: seq<seq<string>>)
    ensures |cellValues| == |cols|
    ensures forall i :: 0 <= i < |cols| ==> cellValues[i] == CellColumn(cols[i].cells)
  {
    cellValues := [];
    var i := 0;
    while i < |cols|
      invariant 0 <= i <= |cols|
      invariant |cellValues| == i
      invariant forall k :: 0 <= k < i ==> cellValues[k] == CellColumn(cols[k].cells)
    {
      var cells := cols[i].cells;
      var colData: seq<string> := [];
      var j := 0;
      while j < |cells|
        invariant 0 <= j <= |cells|
        invariant colData == CellColumn(cells)[..j]
      {
        colData := colData + [CellText(cells[j])];
        j := j + 1;
      }
      cellValues := cellValues + [colData];
      i := i + 1;
    }
  }

  /** No shown cell exceeds 53 characters. */
  lemma TableCellsBounded(cols: seq<Column>, cellValues: seq<seq<string>>)
    requires |cellValues| == |cols|
    requires forall i :: 0 <= i < |cols| ==> cellValues[i] == CellColumn(cols[i].cells)
    ensures forall i, j :: 0 <= i < |cellValues| && 0 <= j < |cellValues[i]| ==> |cellValues[i][j]| <= 53
  {
    forall i, j | 0 <= i < |cellValues| && 0 <= j < |cellValues[i]|
      ensures |cellValues[i][j]| <= 53
    {
      assert cellValues[i][j] == CellText(cols[i].cells[j]);
    }
  }

  // ---------------------------------------------------------------------------
  // _create_bar_chart
  // ---------------------------------------------------------------------------

  datatype Pair = Pair(category: string, value: int)

  /** A value of a numeric column: a number or missing. */
  predicate NumericCells(cells: seq<Cell>) {
    forall i :: 0 <= i < |cells| ==> !cells[i].Text?
  }

  /** The cleaned pairs of the first `n` rows: rows with both values present, the label cut
      to 30 characters. */
  function CleanPairs(xs: seq<Cell>, ys: seq<Cell>, n: nat): (r: seq<Pair>)
    requires n <= |xs| && n <= |ys| && NumericCells(ys)
    ensures |r| <= n
    ensures forall k :: 0 <= k < |r| ==>
      exists i :: 0 <= i < n && !xs[i].Missing? && ys[i].Number? && r[k] == Pair(Take(Shown(xs[i]), 30), ys[i].n)
  {
    if n == 0 then []
    else
      var i := n - 1;
      CleanPairs(xs, ys, i) + (if !xs[i].Missing? && !ys[i].Missing? then [Pair(Take(Shown(xs[i]), 30), ys[i].n)] else [])
  }

  function Min(a: nat, b: nat): nat { if a <= b then a else b }

  /** The loop over `zip(x_data, y_data)` building `x_data_clean` and `y_data_clean`. */
  method CleanBarData(xs: seq<Cell>, ys: seq<Cell>) returns (labels: seq<string>, values: seq<int>)
    requires NumericCells(ys)
    ensures |labels| == |values| == |CleanPairs(xs, ys, Min(|xs|, |ys|))|
    ensures forall k :: 0 <= k < |labels| ==> CleanPairs(xs, ys, Min(|xs|, |ys|))[k] == Pair(labels[k], values[k])
  {
    labels, values := [], [];
    var i := 0;
    var n := Min(|xs|, |ys|);
    while i < n
      invariant 0 <= i <= n
      invariant |labels| == |values| == |CleanPairs(xs, ys, i)|
      invariant forall k :: 0 <= k < |labels| ==> CleanPairs(xs, ys, i)[k] == Pair(labels[k], values[k])
    {
      if !xs[i].Missing? && !ys[i].Missing? {
        labels := labels + [Take(Shown(xs[i]), 30)];
        values := values + [ys[i].n];
      }
      i := i + 1;
    }
  }

  /** The number of the first `n` rows that have both values. */
  function PresentRows(xs: seq<Cell>, ys: seq<Cell>, n: nat): nat
    requires n <= |xs| && n <= |ys|
  {
    if n == 0 then 0
    else PresentRows(xs, ys, n - 1) + (if !xs[n - 1].Missing? && !ys[n - 1].Missing? then 1 else 0)
  }

  /** One pair per row with both values, no label longer than 30 characters. */
  lemma {:induction false} CleanPairsShape(xs: seq<Cell>, ys: seq<Cell>, n: nat)
    requires n <= |xs| && n <= |ys| && NumericCells(ys)
    ensures |CleanPairs(xs, ys, n)| == PresentRows(xs, ys, n)
    ensures forall k :: 0 <= k < |CleanPairs(xs, ys, n)| ==> |CleanPairs(xs, ys, n)[k].category| <= 30
  {
    if n > 0 {
      CleanPairsShape(xs, ys, n - 1);
    }
  }

  /** Without any complete row there is nothing to draw: that is the no-data placeholder. */
  lemma {:induction false} NoPairsIff(xs: seq<Cell>, ys: seq<Cell>, n: nat)
    requires n <= |xs| && n <= |ys| && NumericCells(ys)
    ensures |CleanPairs(xs, ys, n)| == 0 <==> forall i :: 0 <= i < n ==> xs[i].Missing? || ys[i].Missing?
  {
    CleanPairsShape(xs, ys, n);
    PresentRowsZeroIff(xs, ys, n);
  }

  lemma {:induction false} PresentRowsZeroIff(xs: seq<Cell>, ys: seq<Cell>, n: nat)
    requires n <= |xs| && n <= |ys|
    ensures PresentRows(xs, ys, n) == 0 <==> forall i :: 0 <= i < n ==> xs[i].Missing? || ys[i].Missing?
  {
    if n > 0 {
      PresentRowsZeroIff(xs, ys, n - 1);
    }
  }

  /** The distinct labels of some pairs. */
  function LabelSet(ps: seq<Pair>): set<string> {
    set k | 0 <= k < |ps| :: ps[k].category
  }

  /** The summed value of one label. */
  function Total(ps: seq<Pair>, category: string): int {
    if |ps| == 0 then 0 else (if ps[0].category == category then ps[0].value else 0) + Total(ps[1..], category)
  }

  /** `grouped.nlargest(10)`: ten labels whose totals are at least those of every other
      label. Which of several tied labels pandas picks is not modelled. */
  predicate TopByTotal(ps: seq<Pair>, top: set<string>) {
    |top| == 10 && top <= LabelSet(ps)
    && forall a, b :: a in top && b in LabelSet(ps) && b !in top ==> Total(ps, a) >= Total(ps, b)
  }

  /** The pairs whose label is in `top`, in order. */
  function KeepLabels(ps: seq<Pair>, top: set<string>): (r: seq<Pair>)
    ensures |r| <= |ps|
    ensures forall p :: p in r ==> p in ps && p.category in top
  {
    if |ps| == 0 then []
    else (if ps[0].category in top then [ps[0]] else []) + KeepLabels(ps[1..], top)
  }

  /** The top-ten step: more than ten labels keeps the pairs of the top ten (or, should that
      be empty, the first ten pairs); otherwise everything is kept. */
  function BarData(ps: seq<Pair>, top: set<string>): (r: seq<Pair>)
    ensures |r| <= |ps|
    ensures forall p :: p in r ==> p in ps
    ensures |LabelSet(ps)| <= 10 ==> r == ps
  {
    if |LabelSet(ps)| > 10 then
      var kept := KeepLabels(ps, top);
      if |kept| > 0 then kept else ps[..Min(10, |ps|)]
    else ps
  }

  /** Every pair with a kept label is kept. */
  lemma {:induction false} KeepLabelsHas(ps: seq<Pair>, top: set<string>, j: nat)
    requires j < |ps| && ps[j].category in top
    ensures ps[j] in KeepLabels(ps, top)
    decreases j
  {
    if j > 0 {
      assert ps[1..][j - 1] == ps[j];
      KeepLabelsHas(ps[1..], top, j - 1);
    }
  }

  lemma KeepLabelsSet(ps: seq<Pair>, top: set<string>)
    ensures LabelSet(KeepLabels(ps, top)) == LabelSet(ps) * top
  {
    var r := KeepLabels(ps, top);
    forall l | l in LabelSet(r) ensures l in LabelSet(ps) * top {
      var k :| 0 <= k < |r| && r[k].category == l;
      assert r[k] in r;
      var j :| 0 <= j < |ps| && ps[j] == r[k];
    }
    forall l | l in LabelSet(ps) * top ensures l in LabelSet(r) {
      var j :| 0 <= j < |ps| && ps[j].category == l;
      KeepLabelsHas(ps, top, j);
      var k :| 0 <= k < |r| && r[k] == ps[j];
    }
  }

  /** With a valid top ten, the chart keeps exactly the ten top labels, every pair of theirs,
      and never the first-ten fallback. */
  lemma TopTenKept(ps: seq<Pair>, top: set<string>)
    requires |LabelSet(ps)| > 10 && TopByTotal(ps, top)
    ensures BarData(ps, top) == KeepLabels(ps, top)
    ensures LabelSet(BarData(ps, top)) == top
  {
    KeepLabelsSet(ps, top);
    assert LabelSet(ps) * top == top;
  }

  // ---------------------------------------------------------------------------
  // _create_pie_chart
  // ---------------------------------------------------------------------------

  function Sum(vs: seq<int>): int {
    if |vs| == 0 then 0 else vs[0] + Sum(vs[1..])
  }

  lemma {:induction false} SumAppend(a: seq<int>, b: seq<int>)
    ensures Sum(a + b) == Sum(a) + Sum(b)
    decreases |a|
  {
    if |a| > 0 {
      SumAppend(a[1..], b);
      assert (a + b)[1..] == a[1..] + b;
    } else {
      assert a + b == b;
    }
  }

  datatype PieData = PieData(labels: seq<string>, values: seq<int>)

  /** More than eight slices: keep the first seven and fold the rest into "Другие". */
  function FoldPie(labels: seq<string>, values: seq<int>): (r: PieData)
    requires |labels| == |values|
    ensures |r.labels| == |r.values| == (if |labels| > 8 then 8 else |labels|)
    ensures forall k :: 0 <= k < 7 && k < |labels| ==> r.labels[k] == labels[k] && r.values[k] == values[k]
  {
    if |labels| > 8 then PieData(labels[..7] + ["Другие"], values[..7] + [Sum(values[7..])])
    else PieData(labels, values)
  }

  /** Folding keeps at most eight slices, the first seven as they were, and the total. */
  lemma FoldPieMeaning(labels: seq<string>, values: seq<int>)
    requires |labels| == |values|
    ensures |FoldPie(labels, values).labels| == |FoldPie(labels, values).values| <= 8
    ensures |labels| <= 8 ==> FoldPie(labels, values) == PieData(labels, values)
    ensures |labels| > 8 ==>
      (|FoldPie(labels, values).labels| == 8
       && FoldPie(labels, values).labels[..7] == labels[..7]
       && FoldPie(labels, values).labels[7] == "Другие")
    ensures Sum(FoldPie(labels, values).values) == Sum(values)
  {
    if |labels| > 8 {
      SumAppend(values[..7], [Sum(values[7..])]);
      SumAppend(values[..7], values[7..]);
      assert values[..7] + values[7..] == values;
      assert Sum([Sum(values[7..])]) == Sum(values[7..]) + Sum([]);
    }
  }

  // ---------------------------------------------------------------------------
  // DashboardVisualizer._translate_column
  // ---------------------------------------------------------------------------

  /** A dictionary literal of column headings, entry by entry: a later entry for a name
      overrides an earlier one, as in Python. */
  type Headings = seq<(string, string)>

  /** `table.get(name)`: the heading of the last entry for `name`, if there is one. */
  function Heading(table: Headings, name: string): (r: Option<string>)
    ensures r.None? <==> forall i :: 0 <= i < |table| ==> table[i].0 != name
    ensures r.Some? ==>
      exists i :: 0 <= i < |table| && table[i] == (name, r.value) && (forall j :: i < j < |table| ==> table[j].0 != name)
    decreases |table|
  {
    if |table| == 0 then None
    else if table[|table| - 1].0 == name then Some(table[|table| - 1].1)
    else Heading(table[..|table| - 1], name)
  }

  /** The entries of `a` and then those of `b`: `b` decides for the names it lists. */
  lemma {:induction false} HeadingAppend(a: Headings, b: Headings, name: string)
    ensures Heading(a + b, name) == if Heading(b, name).Some? then Heading(b, name) else Heading(a, name)
    decreases |b|
  {
    if |b| > 0 {
      assert (a + b)[..|a + b| - 1] == a + b[..|b| - 1];
      HeadingAppend(a, b[..|b| - 1], name);
    } else {
      assert a + b == a;
    }
  }

  /** Two tables give the same heading to every name they share. */
  predicate Agree(a: Headings, b: Headings) {
    forall i, j :: 0 <= i < |a| && 0 <= j < |b| && a[i].0 == b[j].0 ==> a[i].1 == b[j].1
  }

  lemma AgreeAppend(a1: Headings, a2: Headings, b: Headings)
    requires Agree(a1, b) && Agree(a2, b)
    ensures Agree(a1 + a2, b)
  {
    forall i, j | 0 <= i < |a1 + a2| && 0 <= j < |b| && (a1 + a2)[i].0 == b[j].0
      ensures (a1 + a2)[i].1 == b[j].1
    {
      if i >= |a1| { assert (a1 + a2)[i] == a2[i - |a1|]; }
    }
  }

  /** Appending entries that agree with a table keeps the heading of every name it lists. */
  lemma AgreedHeading(a: Headings, b: Headings, name: string)
    requires Agree(a, b) && Heading(a, name).Some?
    ensures Heading(a + b, name) == Heading(a, name)
  {
    HeadingAppend(a, b, name);
  }

  /** Every name in the table starts with a lower-case letter and every heading with a capital. */
  predicate Capitalized(table: Headings) {
    forall i :: 0 <= i < |table| ==>
      |table[i].0| > 0 && IsLowerChar(table[i].0[0]) && |table[i].1| > 0 && IsUpperChar(table[i].1[0])
  }

  lemma CapitalizedAppend(a: Headings, b: Headings)
    requires Capitalized(a) && Capitalized(b)
    ensures Capitalized(a + b)
  {
    forall i | 0 <= i < |a + b|
      ensures |(a + b)[i].0| > 0 && IsLowerChar((a + b)[i].0[0])
      ensures |(a + b)[i].1| > 0 && IsUpperChar((a + b)[i].1[0])
    {
      if i >= |a| { assert (a + b)[i] == b[i - |a|]; }
    }
  }

  /** In such a table no heading is the name it stands for, nor a name with a heading. */
  lemma HeadingIsNotName(table: Headings, name: string)
    requires Capitalized(table)
    ensures Heading(table, name).Some? ==>
      Heading(table, name).value != name && Heading(table, Heading(table, name).value).None?
  {
  }

  /** The project and staff columns. */
  const StaffHeadings: Headings := [
    ("project_id", "ID проекта"),
    ("project_name", "Название проекта"),
    ("budget", "Бюджет"),
    ("revenue", "Выручка"),
    ("salary", "Зарплата"),
    ("employee_id", "ID сотрудника"),
    ("first_name", "Имя"),
    ("last_name", "Фамилия"),
    ("department", "Отдел"),
    ("position", "Должность"),
    ("hire_date", "Дата приема"),
    ("performance_score", "Оценка эффективности")
  ]

  /** The project dates and the equipment columns. */
  const EquipmentHeadings: Headings := [
    ("start_date", "Дата начала"),
    ("end_date", "Дата окончания"),
    ("status", "Статус"),
    ("manager_id", "ID руководителя"),
    ("equipment_id", "ID оборудования"),
    ("equipment_name", "Название оборудования"),
    ("type", "Тип"),
    ("purchase_date", "Дата покупки"),
    ("maintenance_date", "Дата обслуживания"),
    ("cost", "Стоимость")
  ]

  /** The production and incident columns and the usual aggregates. */
  const ProductionHeadings: Headings := [
    ("production_id", "ID производства"),
    ("date", "Дата"),
    ("product_name", "Название продукта"),
    ("quantity", "Количество"),
    ("incident_id", "ID инцидента"),
    ("description", "Описание"),
    ("severity", "Уровень серьезности"),
    ("resolved", "Решен"),
    ("resolution_time_hours", "Время решения (часы)"),
    ("total_revenue", "Общая выручка"),
    ("employee_count", "Количество сотрудников"),
    ("average_salary", "Средняя зарплата")
  ]

  /** The dashboard's table, in the order of the source. */
  const Translations: Headings := StaffHeadings + EquipmentHeadings + ProductionHeadings

  lemma StaffCapitalized()
    ensures Capitalized(StaffHeadings)
  {
  }

  lemma EquipmentCapitalized()
    ensures Capitalized(EquipmentHeadings)
  {
  }

  lemma ProductionCapitalized()
    ensures Capitalized(ProductionHeadings)
  {
  }

  lemma TranslationsCapitalized()
    ensures Capitalized(Translations)
  {
    StaffCapitalized();
    EquipmentCapitalized();
    ProductionCapitalized();
    CapitalizedAppend(StaffHeadings, EquipmentHeadings);
    CapitalizedAppend(StaffHeadings + EquipmentHeadings, ProductionHeadings);
  }

  /** `translations.get(name, name)`: a name is shown as it is exactly when the table has no
      entry for it, a listed name is shown as one of its headings, and what is shown never has
      a heading of its own. */
  function TranslateColumn(name: string): (r: string)
    ensures r == name <==> Heading(Translations, name).None?
    ensures Heading(Translations, name).Some? ==> (name, r) in Translations
    ensures Heading(Translations, r).None?
  {
    TranslationsCapitalized();
    HeadingIsNotName(Translations, name);
    match Heading(Translations, name)
    case Some(h) => h
    case None => name
  }

  /** Translating a heading a second time changes nothing. */
  lemma TranslateColumnIdempotent(name: string)
    ensures TranslateColumn(TranslateColumn(name)) == TranslateColumn(name)
  {
  }
}
