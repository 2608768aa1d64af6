/** The text helpers of `ReportGenerator`: the query-kind classifier behind the analysis
    dispatch, the blank-line normaliser applied to every answer, the description of a
    ranked row, the sample-value truncation and the column-name translator. */
module ReportText {
  import opened Text
  import opened ChartSelector
  import ChartRendering

  // ---------------------------------------------------------------------------
  // _analyze_query_type
  // ---------------------------------------------------------------------------

  /** The kinds of analysis `generate_text_analysis` writes. */
  datatype Analysis = Comparison | Ranking | Aggregation | Trend | Distribution | General

  /** One `elif any(word in query_lower ...)` test. */
  datatype KindRule = KindRule(words: seq<string>, kind: Analysis)

  /** The tests in the order they are tried; `General` is what is left. */
  const KindRules: seq<KindRule> := [
    KindRule(["сравн", "compare", "сопостав", "против"], Comparison),
    KindRule(["топ", "лучш", "первые", "последние", "ranking", "рейтинг"], Ranking),
    KindRule(["сколько", "сумм", "общ", "всего", "итог", "total", "sum"], Aggregation),
    KindRule(["тренд", "динамик", "изменен", "рост", "снижен", "trend"], Trend),
    KindRule(["распределен", "частота", "сколько всего", "distribution"], Distribution)
  ]

  /** The kind of the first rule from `i` on with a word in `q`, else `General`. */
  function FirstKind(q: string, rules: seq<KindRule>, i: nat): Analysis
    decreases |rules| - i
  {
    if i >= |rules| then General
    else if ContainsAny(q, rules[i].words) then rules[i].kind
    else FirstKind(q, rules, i + 1)
  }

  /** `_analyze_query_type`: the general analysis exactly when no rule has a word in the
      lower-cased query. */
  function QueryKind(query: string): (r: Analysis)
    ensures r == General <==> forall j :: 0 <= j < |KindRules| ==> !ContainsAny(Lower(query), KindRules[j].words)
  {
    FirstKindWitness(Lower(query), KindRules, 0);
    FirstKind(Lower(query), KindRules, 0)
  }

  /** The first rule with a word in the text decides. */
  lemma {:induction false} FirstKindAt(q: string, rules: seq<KindRule>, i: nat, m: nat)
    requires i <= m < |rules| && ContainsAny(q, rules[m].words)
    requires forall j :: i <= j < m ==> !ContainsAny(q, rules[j].words)
    ensures FirstKind(q, rules, i) == rules[m].kind
    decreases m - i
  {
    if i < m {
      FirstKindAt(q, rules, i + 1, m);
    }
  }

  /** A kind other than `General` comes from a rule that fires with no earlier rule firing. */
  lemma {:induction false} FirstKindWitness(q: string, rules: seq<KindRule>, i: nat)
    requires forall j :: 0 <= j < |rules| ==> rules[j].kind != General
    ensures FirstKind(q, rules, i) != General ==>
      exists m :: i <= m < |rules| && rules[m].kind == FirstKind(q, rules, i) && ContainsAny(q, rules[m].words)
        && forall j :: i <= j < m ==> !ContainsAny(q, rules[j].words)
    ensures FirstKind(q, rules, i) == General <==> forall j :: i <= j < |rules| ==> !ContainsAny(q, rules[j].words)
    decreases |rules| - i
  {
    if i < |rules| && !ContainsAny(q, rules[i].words) {
      FirstKindWitness(q, rules, i + 1);
      var r := FirstKind(q, rules, i);
      if r != General {
        var m :| i + 1 <= m < |rules| && rules[m].kind == r && ContainsAny(q, rules[m].words)
          && forall j :: i + 1 <= j < m ==> !ContainsAny(q, rules[j].words);
        assert i <= m;
      }
    }
  }

  /** A comparison word makes a comparison, whatever else the text holds, and only then. */
  lemma ComparisonIff(query: string)
    ensures QueryKind(query) == Comparison <==> ContainsAny(Lower(query), KindRules[0].words)
  {
    var q := Lower(query);
    if ContainsAny(q, KindRules[0].words) {
      FirstKindAt(q, KindRules, 0, 0);
    } else {
      FirstKindWitness(q, KindRules, 0);
    }
  }

  /** 'сколько всего' can never pick the distribution analysis: its 'сколько' is taken by
      aggregation first, so a distribution needs 'распределен', 'частота' or 'distribution'. */
  lemma DistributionNeedsWord(query: string)
    requires QueryKind(query) == Distribution
    ensures Contains(Lower(query), "распределен") || Contains(Lower(query), "частота")
         || Contains(Lower(query), "distribution")
  {
    var q := Lower(query);
    var rules := KindRules;
    FirstKindWitness(q, rules, 0);
    var m :| 0 <= m < |rules| && rules[m].kind == Distribution && ContainsAny(q, rules[m].words)
      && forall j :: 0 <= j < m ==> !ContainsAny(q, rules[j].words);
    assert m == 4;
    assert !Contains(q, rules[2].words[0]);
    WithinSkolkoVsego(q);
    var words := rules[4].words;
    var w :| 0 <= w < |words| && Contains(q, words[w]);
    assert w != 2;
  }

  /** 'сколько всего' holds 'сколько'. */
  lemma WithinSkolkoVsego(q: string)
    ensures Contains(q, "сколько всего") ==> Contains(q, "сколько")
  {
    assert OccursAt("сколько всего", "сколько", 0);
    ContainsWitness("сколько всего", "сколько", 0);
    if Contains(q, "сколько всего") {
      ContainsTransitive(q, "сколько всего", "сколько");
    }
  }

  // ---------------------------------------------------------------------------
  // generate_text_analysis
  // ---------------------------------------------------------------------------

  /** Which text `generate_text_analysis` writes. */
  datatype Report = EmptyResponse | KindAnalysis(kind: Analysis) | SimpleAnalysis

  /** The dispatch; `empty` is `df.empty` and `raises` whether the chosen analysis raised.
      An empty frame always gets the empty response; otherwise the query's kind decides, and
      an exception falls back to the simple analysis. */
  function TextAnalysis(query: string, empty: bool, raises: bool): (r: Report)
    ensures r == EmptyResponse <==> empty
    ensures r == SimpleAnalysis <==> !empty && raises
    ensures r.KindAnalysis? ==> r.kind == QueryKind(query) && !empty && !raises
  {
    if empty then EmptyResponse
    else if raises then SimpleAnalysis
    else KindAnalysis(QueryKind(query))
  }

  // ---------------------------------------------------------------------------
  // _format_response
  // ---------------------------------------------------------------------------

  /** `line.strip() == ''`. */
  predicate Blank(line: string) {
    Strip(line) == ""
  }

  /** A line with no trailing whitespace. */
  predicate EndTrimmed(line: string) {
    |line| == 0 || !IsSpace(line[|line| - 1])
  }

  /** `formatted_lines` after the given lines: each is right-stripped, and a blank one is
      skipped when the last kept line is blank too. */
  function FormatLines(lines: seq<string>): seq<string>
    decreases |lines|
  {
    if |lines| == 0 then []
    else
      var prev := FormatLines(lines[..|lines| - 1]);
      var line := RStrip(lines[|lines| - 1]);
      if Blank(line) && |prev| > 0 && Blank(prev[|prev| - 1]) then prev else prev + [line]
  }

  /** The normalised text: stripped, split, filtered and joined back with newlines. */
  function FormattedText(text: string): string {
    Join(FormatLines(SplitLines(Strip(text))), "\n")
  }

  /** `_format_response`. */
  method FormatResponse(text: string) returns (r: string)
    ensures r == FormattedText(text)
  {
    var lines := SplitLines(Strip(text));
    var formatted: seq<string> := [];
    for i := 0 to |lines|
      invariant formatted == FormatLines(lines[..i])
    {
      var line := RStrip(lines[i]);
      FormatLinesStep(lines, i);
      if Blank(line) && |formatted| > 0 && Blank(formatted[|formatted| - 1]) {
        continue;
      }
      formatted := formatted + [line];
    }
    assert lines[..|lines|] == lines;
    r := Join(formatted, "\n");
  }

  /** One more line for `FormatLines`. */
  lemma FormatLinesStep(lines: seq<string>, i: nat)
    requires i < |lines|
    ensures FormatLines(lines[..i + 1]) ==
      var prev := FormatLines(lines[..i]);
      var line := RStrip(lines[i]);
      if Blank(line) && |prev| > 0 && Blank(prev[|prev| - 1]) then prev else prev + [line]
  {
    assert lines[..i + 1][..i] == lines[..i];
  }

  /** The lines that are not blank once right-stripped, in order. */
  function NonBlankLines(lines: seq<string>): seq<string>
    decreases |lines|
  {
    if |lines| == 0 then []
    else
      var line := RStrip(lines[|lines| - 1]);
      NonBlankLines(lines[..|lines| - 1]) + (if Blank(line) then [] else [line])
  }

  /** A blank line with no trailing whitespace is the empty line. */
  lemma BlankEndTrimmed(line: string)
    requires Blank(line) && EndTrimmed(line)
    ensures line == ""
  {
    StripEmptyIff(line);
  }

  /** The kept lines have no trailing whitespace, and hold no newline when the input lines
      hold none. */
  lemma {:induction false} FormatLinesTrimmed(lines: seq<string>)
    ensures forall k :: 0 <= k < |FormatLines(lines)| ==> EndTrimmed(FormatLines(lines)[k])
    ensures (forall k :: 0 <= k < |lines| ==> '\n' !in lines[k]) ==>
      forall k :: 0 <= k < |FormatLines(lines)| ==> '\n' !in FormatLines(lines)[k]
    decreases |lines|
  {
    if |lines| > 0 {
      FormatLinesTrimmed(lines[..|lines| - 1]);
      RStripShape(lines[|lines| - 1]);
    }
  }

  /** No two neighbouring kept lines are blank. */
  lemma {:induction false} FormatLinesSingleBlanks(lines: seq<string>)
    ensures forall k :: 0 <= k < |FormatLines(lines)| - 1 ==>
      !(Blank(FormatLines(lines)[k]) && Blank(FormatLines(lines)[k + 1]))
    decreases |lines|
  {
    if |lines| > 0 {
      FormatLinesSingleBlanks(lines[..|lines| - 1]);
    }
  }

  /** Only blank lines are dropped: the non-blank lines come out unchanged and in order. */
  lemma {:induction false} FormatKeepsNonBlank(lines: seq<string>)
    ensures NonBlankLines(FormatLines(lines)) == NonBlankLines(lines)
    decreases |lines|
  {
    if |lines| > 0 {
      var init := lines[..|lines| - 1];
      var prev := FormatLines(init);
      var line := RStrip(lines[|lines| - 1]);
      FormatKeepsNonBlank(init);
      RStripShape(lines[|lines| - 1]);
      RStripOfTrimmedEnd(line);
      if !(Blank(line) && |prev| > 0 && Blank(prev[|prev| - 1])) {
        assert (prev + [line])[..|prev|] == prev;
      }
    }
  }

  /** The first right-stripped line is always kept. */
  lemma {:induction false} FormatLinesFirst(lines: seq<string>)
    requires |lines| > 0
    ensures |FormatLines(lines)| > 0 && FormatLines(lines)[0] == RStrip(lines[0])
    decreases |lines|
  {
    if |lines| > 1 {
      var init := lines[..|lines| - 1];
      FormatLinesFirst(init);
      assert init[0] == lines[0];
    }
  }

  /** Lines already in the normal form are kept as they are. */
  lemma {:induction false} FormatLinesFixed(lines: seq<string>)
    requires forall k :: 0 <= k < |lines| ==> EndTrimmed(lines[k])
    requires forall k :: 0 <= k < |lines| - 1 ==> !(Blank(lines[k]) && Blank(lines[k + 1]))
    ensures FormatLines(lines) == lines
    decreases |lines|
  {
    if |lines| > 0 {
      var init := lines[..|lines| - 1];
      FormatLinesFixed(init);
      RStripOfTrimmedEnd(lines[|lines| - 1]);
      assert init + [lines[|lines| - 1]] == lines;
    }
  }

  /** Right-stripping keeps a first character that is not blank. */
  lemma RStripKeepsFirst(s: string)
    requires |s| > 0 && !IsSpace(s[0])
    ensures |RStrip(s)| > 0 && RStrip(s)[0] == s[0]
  {
    RStripShape(s);
  }

  /** A non-blank text's normal form starts with the text's first non-blank character. */
  lemma FormattedFirst(text: string)
    requires |Strip(text)| > 0
    ensures |FormattedText(text)| > 0 && FormattedText(text)[0] == Strip(text)[0]
  {
    var s := Strip(text);
    StripShape(text);
    var lines := SplitLines(s);
    SplitFirstChar(s);
    FormatLinesFirst(lines);
    RStripKeepsFirst(lines[0]);
    JoinFirstChar(FormatLines(lines), "\n");
  }

  /** A non-blank text's normal form ends with the text's last non-blank character. */
  lemma FormattedLast(text: string)
    requires |Strip(text)| > 0
    ensures var out := FormattedText(text); |out| > 0 && out[|out| - 1] == Strip(text)[|Strip(text)| - 1]
  {
    var s := Strip(text);
    StripShape(text);
    var lines := SplitLines(s);
    SplitLastChar(s);
    var last := lines[|lines| - 1];
    RStripOfTrimmedEnd(last);
    StripEmptyIff(last);
    assert FormatLines(lines)[|FormatLines(lines)| - 1] == last;
    JoinLastChar(FormatLines(lines), "\n");
  }

  /** The normalised text has no blank at either end. */
  lemma FormattedTrimmed(text: string)
    ensures Trimmed(FormattedText(text))
  {
    var s := Strip(text);
    StripShape(text);
    if |s| > 0 {
      FormattedFirst(text);
      FormattedLast(text);
    } else {
      assert SplitLines(s) == [""];
      assert RStrip("") == "";
      assert FormatLines([""]) == [""];
    }
  }

  /** Normalising twice changes nothing more than normalising once. */
  lemma FormatIdempotent(text: string)
    ensures FormattedText(FormattedText(text)) == FormattedText(text)
  {
    var out := FormattedText(text);
    var lines := SplitLines(Strip(text));
    var r := FormatLines(lines);
    FormattedTrimmed(text);
    StripOfTrimmed(out);
    FormatLinesFirst(lines);
    FormatLinesTrimmed(lines);
    FormatLinesSingleBlanks(lines);
    SplitJoin(r);
    FormatLinesFixed(r);
  }

  // ---------------------------------------------------------------------------
  // _describe_row_for_ranking
  // ---------------------------------------------------------------------------

  /** `str(val)[:n]` of the present cells, in order. */
  function PresentTexts(cells: seq<Cell>, n: nat): seq<string>
    decreases |cells|
  {
    if |cells| == 0 then []
    else
      var c := cells[|cells| - 1];
      PresentTexts(cells[..|cells| - 1], n) + (if c.Missing? then [] else [Take(ChartRendering.Shown(c), n)])
  }

  /** The described cells: the first two of the row without categorical columns (cut to 20
      characters), else the first two categorical values (cut to 25). `categorical` holds
      the row's value for each categorical column, `Missing` when the row lacks it. */
  function DescribedParts(row: seq<Cell>, categorical: seq<Cell>): seq<string> {
    if |categorical| == 0 then PresentTexts(row[..if |row| < 2 then |row| else 2], 20)
    else PresentTexts(categorical[..if |categorical| < 2 then |categorical| else 2], 25)
  }

  function RowDescription(row: seq<Cell>, categorical: seq<Cell>): string {
    var parts := DescribedParts(row, categorical);
    if |parts| == 0 then "Запись" else Join(parts, ", ")
  }

  /** `_describe_row_for_ranking`. */
  method DescribeRowForRanking(row: seq<Cell>, categorical: seq<Cell>) returns (r: string)
    ensures r == RowDescription(row, categorical)
  {
    var cells, n;
    if |categorical| == 0 {
      cells, n := row[..if |row| < 2 then |row| else 2], 20;
    } else {
      cells, n := categorical[..if |categorical| < 2 then |categorical| else 2], 25;
    }
    var parts: seq<string> := [];
    for i := 0 to |cells|
      invariant parts == PresentTexts(cells[..i], n)
    {
      assert cells[..i + 1][..i] == cells[..i];
      if !cells[i].Missing? {
        parts := parts + [Take(ChartRendering.Shown(cells[i]), n)];
      }
    }
    assert cells[..|cells|] == cells;
    if |parts| == 0 {
      r := "Запись";
    } else {
      r := Join(parts, ", ");
    }
  }

  /** One text per present cell, none longer than the cut. */
  lemma {:induction false} PresentTextsShape(cells: seq<Cell>, n: nat)
    ensures |PresentTexts(cells, n)| <= |cells|
    ensures forall k :: 0 <= k < |PresentTexts(cells, n)| ==> |PresentTexts(cells, n)[k]| <= n
    ensures |PresentTexts(cells, n)| == 0 <==> forall k :: 0 <= k < |cells| ==> cells[k].Missing?
    ensures (forall k :: 0 <= k < |cells| ==> !cells[k].Missing?) ==>
      PresentTexts(cells, n) == seq(|cells|, k requires 0 <= k < |cells| => Take(ChartRendering.Shown(cells[k]), n))
    decreases |cells|
  {
    if |cells| > 0 {
      var init := cells[..|cells| - 1];
      PresentTextsShape(init, n);
      assert forall k :: 0 <= k < |init| ==> init[k] == cells[k];
    }
  }

  /** At most two parts, each within 25 characters (20 without categorical columns), and
      'Запись' exactly when none of the described cells is present. */
  lemma DescriptionShape(row: seq<Cell>, categorical: seq<Cell>)
    ensures |DescribedParts(row, categorical)| <= 2
    ensures forall k :: 0 <= k < |DescribedParts(row, categorical)| ==>
      |DescribedParts(row, categorical)[k]| <= (if |categorical| == 0 then 20 else 25)
    ensures |categorical| > 0 ==>
      (|DescribedParts(row, categorical)| == 0 <==>
       forall k :: 0 <= k < 2 && k < |categorical| ==> categorical[k].Missing?)
    ensures |categorical| == 0 ==>
      (|DescribedParts(row, categorical)| == 0 <==> forall k :: 0 <= k < 2 && k < |row| ==> row[k].Missing?)
    ensures |DescribedParts(row, categorical)| == 0 ==> RowDescription(row, categorical) == "Запись"
  {
    if |categorical| == 0 {
      var cells := row[..if |row| < 2 then |row| else 2];
      PresentTextsShape(cells, 20);
      assert forall k :: 0 <= k < |cells| ==> cells[k] == row[k];
    } else {
      var cells := categorical[..if |categorical| < 2 then |categorical| else 2];
      PresentTextsShape(cells, 25);
      assert forall k :: 0 <= k < |cells| ==> cells[k] == categorical[k];
    }
  }

  // ---------------------------------------------------------------------------
  // Sample records in _generate_general_analysis
  // ---------------------------------------------------------------------------

  /** A sample value: longer than 30 characters, it is cut to 27 and gets '...'. */
  function SampleValue(s: string): (r: string)
    ensures |r| <= 30
    ensures |s| <= 30 ==> r == s
    ensures |s| > 30 ==> |r| == 30 && r[..27] == s[..27] && EndsWith(r, "...")
  {
    if |s| > 30 then s[..27] + "..." else s
  }

  /** One `"{column}: {value}"` entry of a sample record: the heading, two characters, and a
      value of at most thirty. */
  function SampleEntry(column: string, c: Cell): (r: string)
    ensures |TranslateColumn(column)| + 2 <= |r| <= |TranslateColumn(column)| + 32
  {
    TranslateColumn(column) + ": " + (if c.Missing? then "нет данных" else SampleValue(ChartRendering.Shown(c)))
  }

  // ---------------------------------------------------------------------------
  // _translate_column
  // ---------------------------------------------------------------------------

  /** The entries the report's table adds after those it shares with the dashboard's, in the
      order of the source ('quantity' is listed a second time, with the same heading). */
  const ExtraHeadings: ChartRendering.Headings := [
    ("quantity", "Количество"),
    ("price", "Цена"),
    ("amount", "Сумма"),
    ("value", "Значение"),
    ("count", "Количество"),
    ("sum", "Сумма"),
    ("avg", "Среднее"),
    ("min", "Минимум"),
    ("max", "Максимум")
  ]

  /** The report's table of Russian headings: the dashboard's thirty-four entries, then nine more. */
  const ReportTranslations: ChartRendering.Headings := ChartRendering.Translations + ExtraHeadings

  /** Whether Python's `str.title()` upper-cases position `k`: it starts a run of cased letters. */
  predicate StartsWord(s: string, k: nat)
    requires k < |s|
  {
    k == 0 || !IsCased(s[k - 1])
  }

  /** Python's `s.title()`: the first letter of every run of letters upper-cased, the rest
      lower-cased. */
  function Title(s: string): (r: string)
    ensures |r| == |s|
  {
    seq(|s|, k requires 0 <= k < |s| => if StartsWord(s, k) then UpperChar(s[k]) else LowerChar(s[k]))
  }

  /** `_translate_column` for a string name: the table's heading, else the name with '_' as
      ' ', title-cased. */
  function TranslateColumn(name: string): string {
    match ChartRendering.Heading(ReportTranslations, name)
    case Some(h) => h
    case None => Title(Replace(name, "_", " "))
  }

  /** Title-casing keeps which characters are letters, makes a letter upper-case exactly when
      it starts a word, and leaves everything else alone. */
  lemma TitleMeaning(s: string)
    ensures forall k :: 0 <= k < |s| ==> (IsCased(Title(s)[k]) <==> IsCased(s[k]))
    ensures forall k :: 0 <= k < |s| && IsCased(s[k]) ==> (IsUpperChar(Title(s)[k]) <==> StartsWord(s, k))
    ensures forall k :: 0 <= k < |s| && !IsCased(s[k]) ==> Title(s)[k] == s[k]
  {
  }

  /** Title-casing a title-cased text changes nothing. */
  lemma TitleIdempotent(s: string)
    ensures Title(Title(s)) == Title(s)
  {
    var t := Title(s);
    TitleMeaning(s);
    forall k | 0 <= k < |s|
      ensures Title(t)[k] == t[k]
    {
      assert StartsWord(t, k) <==> StartsWord(s, k);
    }
  }

  /** A name outside the table keeps its length, loses every '_' to a space, and gets the
      same heading when the heading is translated again. */
  lemma UnknownColumnHeading(name: string)
    requires ChartRendering.Heading(ReportTranslations, name).None?
    ensures |TranslateColumn(name)| == |name|
    ensures forall k :: 0 <= k < |name| && name[k] == '_' ==> TranslateColumn(name)[k] == ' '
    ensures forall k :: 0 <= k < |name| && name[k] != '_' && !IsCased(name[k]) ==> TranslateColumn(name)[k] == name[k]
    ensures '_' !in TranslateColumn(name)
    ensures ChartRendering.Heading(ReportTranslations, TranslateColumn(name)).None? ==>
      TranslateColumn(TranslateColumn(name)) == TranslateColumn(name)
  {
    var spaced := Replace(name, "_", " ");
    ReplaceChar(name, '_', ' ');
    assert "_" == ['_'] && " " == [' '];
    var r := Title(spaced);
    TitleMeaning(spaced);
    assert '_' !in r by {
      forall k | 0 <= k < |r| ensures r[k] != '_' {
        assert spaced[k] != '_';
      }
    }
    if ChartRendering.Heading(ReportTranslations, r).None? {
      NotContainsByChar(r, "_", '_');
      ReplaceAbsent(r, "_", " ");
      TitleIdempotent(spaced);
    }
  }

  lemma StaffAgrees()
    ensures ChartRendering.Agree(ChartRendering.StaffHeadings, ExtraHeadings)
  {
  }

  lemma EquipmentAgrees()
    ensures ChartRendering.Agree(ChartRendering.EquipmentHeadings, ExtraHeadings)
  {
  }

  lemma ProductionAgrees()
    ensures ChartRendering.Agree(ChartRendering.ProductionHeadings, ExtraHeadings)
  {
  }

  /** Every name the dashboard translates gets the same heading in the report. */
  lemma DashboardHeadingsAgree(name: string)
    requires ChartRendering.Heading(ChartRendering.Translations, name).Some?
    ensures ChartRendering.Heading(ReportTranslations, name) == ChartRendering.Heading(ChartRendering.Translations, name)
    ensures TranslateColumn(name) == ChartRendering.TranslateColumn(name)
  {
    StaffAgrees();
    EquipmentAgrees();
    ProductionAgrees();
    ChartRendering.AgreeAppend(ChartRendering.StaffHeadings, ChartRendering.EquipmentHeadings, ExtraHeadings);
    ChartRendering.AgreeAppend(
      ChartRendering.StaffHeadings + ChartRendering.EquipmentHeadings, ChartRendering.ProductionHeadings, ExtraHeadings);
    ChartRendering.AgreedHeading(ChartRendering.Translations, ExtraHeadings, name);
  }

  lemma ExtraCapitalized()
    ensures ChartRendering.Capitalized(ExtraHeadings)
  {
  }

  /** A name the report's table lists is shown as one of its headings, which differs from the
      name and has no entry of its own. */
  lemma KnownColumnHeading(name: string)
    requires ChartRendering.Heading(ReportTranslations, name).Some?
    ensures (name, TranslateColumn(name)) in ReportTranslations
    ensures TranslateColumn(name) != name
    ensures ChartRendering.Heading(ReportTranslations, TranslateColumn(name)).None?
  {
    ChartRendering.TranslationsCapitalized();
    ExtraCapitalized();
    ChartRendering.CapitalizedAppend(ChartRendering.Translations, ExtraHeadings);
    ChartRendering.HeadingIsNotName(ReportTranslations, name);
  }
}
