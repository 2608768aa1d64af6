/** `_generate_sql_with_llm` and `_extract_sql_from_response`: the language model is an
    oracle whose answer is `None` when the call fails; a present answer is stripped, its
    markdown fences are removed, and the SQL lines up to the first one ending in `;` are
    joined with single spaces. */
module LlmFallback {
  import opened Text

  /** What the extractor returns when the answer holds no query. */
  const NoQuerySql := "SELECT 'Не удалось сгенерировать запрос' as error;"

  /** What the generator returns when the model call raises. */
  const LlmErrorSql := "SELECT 'Ошибка генерации SQL' as error;"

  /** The answer with its ```` ```sql ```` and ```` ``` ```` fences removed, then stripped. */
  function Unfenced(text: string): string {
    Strip(Replace(Replace(text, "```sql", ""), "```", ""))
  }

  /** A stripped line is kept when it is neither blank nor a `--` comment. */
  predicate Keeps(line: string) {
    line != "" && !StartsWith(line, "--")
  }

  /** The kept lines, stripped, up to and including the first line that ends with `;`
      (that line is inspected for the stop even when it is not kept). */
  function KeptLines(lines: seq<string>): seq<string>
    decreases |lines|
  {
    if |lines| == 0 then []
    else
      var line := Strip(lines[0]);
      var kept := if Keeps(line) then [line] else [];
      if EndsWith(line, ";") then kept else kept + KeptLines(lines[1..])
  }

  /** The joined text itself, or the placeholder when it is empty or has no SELECT. */
  function OrPlaceholder(sql: string): string {
    if sql == "" || !Contains(Upper(sql), "SELECT") then NoQuerySql else sql
  }

  /** The joined kept lines of the unfenced answer, or the placeholder: either way a SELECT,
      and on a single line (the kept lines hold no newline and are joined with spaces). */
  function ExtractedSql(text: string): (r: string)
    ensures r == NoQuerySql || (r != "" && Contains(Upper(r), "SELECT"))
    ensures r != ""
    ensures r != NoQuerySql ==> '\n' !in r
  {
    KeptLinesFromLines(SplitLines(Unfenced(text)));
    JoinNoNewline(KeptLines(SplitLines(Unfenced(text))), " ");
    OrPlaceholder(Join(KeptLines(SplitLines(Unfenced(text))), " "))
  }

  /** `_extract_sql_from_response`, with its early `break`. */
  method ExtractSql(text: string) returns (r: string)
    ensures r == ExtractedSql(text)
  {
    var lines := SplitLines(Unfenced(text));
    var sqlLines: seq<string> := [];
    var i := 0;
    while i < |lines|
      invariant 0 <= i <= |lines|
      invariant KeptLines(lines) == sqlLines + KeptLines(lines[i..])
    {
      var line := Strip(lines[i]);
      KeptLinesStep(lines, i);
      ghost var before, kept := sqlLines, if Keeps(line) then [line] else [];
      if Keeps(line) {
        sqlLines := sqlLines + [line];
      }
      assert sqlLines == before + kept;
      if EndsWith(line, ";") {
        assert KeptLines(lines[i..]) == kept + [];
        break;
      }
      AppendAssoc(before, kept, KeptLines(lines[i + 1..]));
      i := i + 1;
    }
    assert KeptLines(lines) == sqlLines;
    var sql := Join(sqlLines, " ");
    if sql == "" || !Contains(Upper(sql), "SELECT") {
      r := NoQuerySql;
    } else {
      r := sql;
    }
    assert r == OrPlaceholder(sql);
  }

  /** One step of `KeptLines` from position `i`. */
  lemma KeptLinesStep(lines: seq<string>, i: nat)
    requires i < |lines|
    ensures KeptLines(lines[i..]) ==
      (if Keeps(Strip(lines[i])) then [Strip(lines[i])] else [])
      + (if EndsWith(Strip(lines[i]), ";") then [] else KeptLines(lines[i + 1..]))
  {
    assert lines[i..][0] == lines[i] && lines[i..][1..] == lines[i + 1..];
  }

  /** The SQL the model path yields: the error SELECT when the call fails, else the answer's
      extracted query. */
  function LlmSql(answer: Option<string>): (r: string)
    ensures answer.None? ==> r == LlmErrorSql
    ensures answer.Some? ==> r == NoQuerySql || (r != "" && Contains(Upper(r), "SELECT") && '\n' !in r)
  {
    if answer.None? then LlmErrorSql else ExtractedSql(Strip(answer.value))
  }

  // ---------------------------------------------------------------------------
  // Properties
  // ---------------------------------------------------------------------------

  /** Every kept line is stripped, non-blank and not a comment, and only the last ends with `;`. */
  lemma {:induction false} KeptLinesShape(lines: seq<string>)
    ensures forall k :: 0 <= k < |KeptLines(lines)| ==> Keeps(KeptLines(lines)[k]) && Trimmed(KeptLines(lines)[k])
    ensures forall k :: 0 <= k < |KeptLines(lines)| - 1 ==> !EndsWith(KeptLines(lines)[k], ";")
    decreases |lines|
  {
    if |lines| > 0 {
      var line := Strip(lines[0]);
      StripShape(lines[0]);
      if !EndsWith(line, ";") {
        KeptLinesShape(lines[1..]);
      }
    }
  }

  /** Lines after the first one ending in `;` are never looked at. */
  lemma {:induction false} KeptLinesStop(lines: seq<string>, j: nat)
    requires j < |lines| && EndsWith(Strip(lines[j]), ";")
    ensures KeptLines(lines) == KeptLines(lines[..j + 1])
    decreases j
  {
    if j > 0 && !EndsWith(Strip(lines[0]), ";") {
      KeptLinesStop(lines[1..], j - 1);
      assert lines[1..][..j] == lines[..j + 1][1..];
    }
  }

  /** Kept lines inherit the absence of newlines from the lines they come from. */
  lemma {:induction false} KeptLinesFromLines(lines: seq<string>)
    requires forall k :: 0 <= k < |lines| ==> '\n' !in lines[k]
    ensures forall k :: 0 <= k < |KeptLines(lines)| ==> '\n' !in KeptLines(lines)[k]
    decreases |lines|
  {
    if |lines| > 0 {
      StripShape(lines[0]);
      ContainsNoChar(lines[0], Strip(lines[0]), '\n');
      if !EndsWith(Strip(lines[0]), ";") {
        KeptLinesFromLines(lines[1..]);
      }
    }
  }

  /** A substring holds no character its text does not hold. */
  lemma ContainsNoChar(s: string, sub: string, c: char)
    requires Contains(s, sub) && c !in s
    ensures c !in sub
  {
    ContainsMeaning(s, sub);
    var k :| OccursAt(s, sub, k);
    assert sub == s[k..k + |sub|];
  }

  /** A clean one-line answer (trimmed, no fence, not a comment, mentioning SELECT) comes back
      unchanged. */
  lemma ExtractOfPlainStatement(s: string)
    requires s != "" && Trimmed(s) && '\n' !in s && !Contains(s, "```")
    requires !StartsWith(s, "--") && Contains(Upper(s), "SELECT")
    ensures ExtractedSql(s) == s
  {
    if Contains(s, "```sql") {
      assert Contains("```sql", "```") by {
        assert OccursAt("```sql", "```", 0);
        ContainsWitness("```sql", "```", 0);
      }
      ContainsTransitive(s, "```sql", "```");
    }
    ReplaceAbsent(s, "```sql", "");
    ReplaceAbsent(s, "```", "");
    StripOfTrimmed(s);
    assert FindChar(s, '\n', 0) == |s|;
    assert SplitLines(s) == [s];
    assert KeptLines([s]) == [s];
  }
}
