/** The date-normalising CASE expression that every sales handler embeds. A value shaped
    year-month-day (with any suffix) keeps its first ten characters; a value shaped
    day.month.year (with any suffix) is rebuilt as year, month and day joined by '-'; any
    other value keeps its first ten characters. The cleaned value is then re-filtered: only a
    text of exactly ten characters in year-month-day shape goes on to the aggregation. In a
    SQL LIKE pattern `_` stands for exactly one character and a trailing `%` for any suffix;
    SQLite's `substr` counts from 1. */
module DateNormalizer {
  import opened Text

  /** `date LIKE '____-__-__%'`: ISO year-month-day shape, any suffix. */
  predicate IsoShaped(s: string) {
    |s| >= 10 && s[4] == '-' && s[7] == '-'
  }

  /** `date LIKE '__.__.____%'`: Russian day.month.year shape, any suffix. */
  predicate DmyShaped(s: string) {
    |s| >= 10 && s[2] == '.' && s[5] == '.'
  }

  /** `clean_date LIKE '____-__-__'`: exactly ten characters in ISO shape. */
  predicate StrictIso(s: string) {
    |s| == 10 && s[4] == '-' && s[7] == '-'
  }

  /** The CASE expression, branch for branch. */
  function CleanDate(s: string): (r: string)
    ensures |r| == if |s| < 10 then |s| else 10
  {
    if IsoShaped(s) then s[..10]
    else if DmyShaped(s) then s[6..10] + "-" + s[3..5] + "-" + s[..2]
    else Take(s, 10)
  }

  /** A NULL date stays NULL through the CASE and fails every LIKE. */
  function CleanDateOrNull(d: Option<string>): Option<string> {
    if d.None? then None else Some(CleanDate(d.value))
  }

  /** A row's date reaches the aggregation stage exactly when its cleaned form is strict ISO. */
  predicate ReachesAggregation(d: Option<string>) {
    var c := CleanDateOrNull(d);
    c.Some? && StrictIso(c.value)
  }

  /** An ISO-shaped value keeps its first ten characters. */
  lemma CleanDateOfIso(s: string)
    requires IsoShaped(s)
    ensures CleanDate(s) == s[..10]
    ensures StrictIso(CleanDate(s))
  {
  }

  /** A day.month.year value is rewritten field by field into year-month-day. */
  lemma CleanDateOfDmy(s: string)
    requires DmyShaped(s) && !IsoShaped(s)
    ensures StrictIso(CleanDate(s))
    ensures CleanDate(s)[..4] == s[6..10]
    ensures CleanDate(s)[5..7] == s[3..5]
    ensures CleanDate(s)[8..] == s[..2]
  {
    var r := CleanDate(s);
    assert r == s[6..10] + "-" + s[3..5] + "-" + s[..2];
  }

  /** Only ISO-shaped or day.month.year-shaped values survive the strict re-filter. */
  lemma StrictIsoIff(s: string)
    ensures StrictIso(CleanDate(s)) <==> IsoShaped(s) || DmyShaped(s)
  {
    if !IsoShaped(s) && !DmyShaped(s) {
      var r := CleanDate(s);
      assert r == Take(s, 10);
      assert |r| == 10 ==> r[4] == s[4] && r[7] == s[7];
    }
  }

  /** A NULL date never reaches aggregation; a present one does iff it has one of the two shapes. */
  lemma ReachesAggregationIff(d: Option<string>)
    ensures ReachesAggregation(d) <==> d.Some? && (IsoShaped(d.value) || DmyShaped(d.value))
  {
    if d.Some? {
      StrictIsoIff(d.value);
    }
  }

  /** Normalising an already-normalised date changes nothing. */
  lemma CleanDateIdempotent(s: string)
    ensures CleanDate(CleanDate(s)) == CleanDate(s)
  {
    var r := CleanDate(s);
    StrictIsoIff(s);
    if IsoShaped(s) || DmyShaped(s) {
      assert IsoShaped(r) && r[..10] == r;
    } else {
      assert !IsoShaped(r) && !DmyShaped(r);
      assert Take(r, 10) == r;
    }
  }

  lemma RussianDateExample()
    ensures CleanDate("04.07.2023") == "2023-07-04"
  {
    var s := "04.07.2023";
    assert !IsoShaped(s) && DmyShaped(s);
    assert s[6..10] == "2023" && s[3..5] == "07" && s[..2] == "04";
  }

  lemma IsoDateExample()
    ensures CleanDate("2023-07-04") == "2023-07-04"
  {
  }
}
