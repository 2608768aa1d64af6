/** Python string primitives the query engine relies on, over `string` (= `seq<char>`).
    Everything is defined by index recursion so that short literal words can be
    evaluated by the verifier; the lemmas give the usual positional meaning. */
module Text {

  datatype Option<T> = None | Some(value: T)

  // ---------------------------------------------------------------------------
  // Substring search: Python's `kw in s`
  // ---------------------------------------------------------------------------

  /** `kw[j..]` occurs in `s` starting at position `i + j`. */
  predicate MatchAt(s: string, kw: string, i: nat, j: nat)
    decreases |kw| - j
  {
    j >= |kw| || (i + j < |s| && s[i + j] == kw[j] && MatchAt(s, kw, i, j + 1))
  }

  /** `kw` occurs in `s` at some position `>= i`. */
  predicate ContainsFrom(s: string, kw: string, i: nat)
    decreases |s| - i
  {
    i + |kw| <= |s| && (MatchAt(s, kw, i, 0) || ContainsFrom(s, kw, i + 1))
  }

  predicate Contains(s: string, kw: string) {
    ContainsFrom(s, kw, 0)
  }

  /** Python's `any(w in s for w in kws)`. */
  predicate ContainsAny(s: string, kws: seq<string>)
  {
    exists k :: 0 <= k < |kws| && Contains(s, kws[k])
  }

  ghost predicate OccursAt(s: string, kw: string, k: int) {
    0 <= k && k + |kw| <= |s| && s[k..k + |kw|] == kw
  }

  lemma {:induction false} MatchAtMeaning(s: string, kw: string, i: nat, j: nat)
    requires i + |kw| <= |s| && j <= |kw|
    ensures MatchAt(s, kw, i, j) <==> s[i + j..i + |kw|] == kw[j..]
    decreases |kw| - j
  {
    if j < |kw| {
      MatchAtMeaning(s, kw, i, j + 1);
      assert s[i + j..i + |kw|] == [s[i + j]] + s[i + j + 1..i + |kw|];
      assert kw[j..] == [kw[j]] + kw[j + 1..];
    }
  }

  lemma {:induction false} ContainsFromMeaning(s: string, kw: string, i: nat)
    ensures ContainsFrom(s, kw, i) <==> exists k :: i <= k && OccursAt(s, kw, k)
    decreases |s| - i
  {
    if i + |kw| <= |s| {
      MatchAtMeaning(s, kw, i, 0);
      assert kw[0..] == kw;
      ContainsFromMeaning(s, kw, i + 1);
      assert MatchAt(s, kw, i, 0) <==> OccursAt(s, kw, i);
      assert (exists k :: i <= k && OccursAt(s, kw, k))
         <==> OccursAt(s, kw, i) || (exists k :: i + 1 <= k && OccursAt(s, kw, k));
    }
  }

  /** `Contains` is the positional definition of a substring. */
  lemma ContainsMeaning(s: string, kw: string)
    ensures Contains(s, kw) <==> exists k :: OccursAt(s, kw, k)
  {
    ContainsFromMeaning(s, kw, 0);
  }

  lemma ContainsWitness(s: string, kw: string, k: int)
    requires OccursAt(s, kw, k)
    ensures Contains(s, kw)
  {
    ContainsMeaning(s, kw);
  }

  lemma ContainsAppend(a: string, b: string, kw: string)
    ensures Contains(a, kw) ==> Contains(a + b, kw)
    ensures Contains(b, kw) ==> Contains(a + b, kw)
  {
    ContainsMeaning(a, kw);
    ContainsMeaning(b, kw);
    if Contains(a, kw) {
      var k :| OccursAt(a, kw, k);
      assert (a + b)[k..k + |kw|] == a[k..k + |kw|];
      ContainsWitness(a + b, kw, k);
    }
    if Contains(b, kw) {
      var k :| OccursAt(b, kw, k);
      assert (a + b)[|a| + k..|a| + k + |kw|] == b[k..k + |kw|];
      ContainsWitness(a + b, kw, |a| + k);
    }
  }

  lemma OccursInLeft(a: string, b: string, kw: string, k: int)
    requires OccursAt(a, kw, k)
    ensures OccursAt(a + b, kw, k)
  {
    assert (a + b)[k..k + |kw|] == a[k..k + |kw|];
  }

  lemma OccursInRight(a: string, b: string, kw: string, k: int)
    requires OccursAt(b, kw, k)
    ensures OccursAt(a + b, kw, |a| + k)
  {
    assert (a + b)[|a| + k..|a| + k + |kw|] == b[k..k + |kw|];
  }

  lemma OccursConcat(s: string, x: string, y: string, k: int)
    requires OccursAt(s, x, k) && OccursAt(s, y, k + |x|)
    ensures OccursAt(s, x + y, k)
  {
    assert s[k..k + |x + y|] == s[k..k + |x|] + s[k + |x|..k + |x| + |y|];
  }

  lemma ContainsItself(s: string)
    ensures Contains(s, s)
  {
    assert OccursAt(s, s, 0);
    ContainsWitness(s, s, 0);
  }

  /** A text assembled around `word` contains it. */
  function Around(head: string, word: string, rest: string): (r: string)
    ensures Contains(r, word)
  {
    ContainsItself(word);
    ContainsAppend(head, word, word);
    ContainsAppend(head + word, rest, word);
    head + word + rest
  }

  /** A text containing `kw` contains every substring of `kw`. */
  lemma ContainsTransitive(s: string, kw: string, sub: string)
    requires Contains(s, kw) && Contains(kw, sub)
    ensures Contains(s, sub)
  {
    ContainsMeaning(s, kw);
    ContainsMeaning(kw, sub);
    var k :| OccursAt(s, kw, k);
    var m :| OccursAt(kw, sub, m);
    assert kw == s[k..k + |kw|];
    assert m + |sub| <= |kw|;
    var x, y, w := kw[m..m + |sub|], s[k + m..k + m + |sub|], s[k..k + |kw|];
    forall j | 0 <= j < |sub| ensures x[j] == y[j] {
      assert x[j] == kw[m + j] == w[m + j];
    }
    assert x == y;
    ContainsWitness(s, sub, k + m);
  }

  /** Nothing occurs in a text that misses one of its characters. */
  lemma NotContainsByChar(s: string, kw: string, c: char)
    ensures c in kw && c !in s ==> !Contains(s, kw)
  {
    ContainsMeaning(s, kw);
    if Contains(s, kw) && c in kw {
      var k :| OccursAt(s, kw, k);
      var m :| 0 <= m < |kw| && kw[m] == c;
      assert s[k + m] == kw[m];
    }
  }

  // ---------------------------------------------------------------------------
  // Prefixes, suffixes, truncation, counting
  // ---------------------------------------------------------------------------

  predicate StartsWith(s: string, p: string) {
    |p| <= |s| && MatchAt(s, p, 0, 0)
  }

  predicate EndsWith(s: string, p: string) {
    |p| <= |s| && MatchAt(s, p, |s| - |p|, 0)
  }

  lemma StartsWithMeaning(s: string, p: string)
    ensures StartsWith(s, p) <==> |p| <= |s| && s[..|p|] == p
  {
    if |p| <= |s| {
      MatchAtMeaning(s, p, 0, 0);
      assert p[0..] == p;
    }
  }

  lemma EndsWithMeaning(s: string, p: string)
    ensures EndsWith(s, p) <==> |p| <= |s| && s[|s| - |p|..] == p
  {
    if |p| <= |s| {
      MatchAtMeaning(s, p, |s| - |p|, 0);
      assert p[0..] == p;
    }
  }

  lemma StartsWithContains(s: string, p: string)
    requires StartsWith(s, p)
    ensures Contains(s, p)
  {
    StartsWithMeaning(s, p);
    ContainsWitness(s, p, 0);
  }

  /** A text whose tail starts with `p` contains `p`. */
  lemma ContainsAfter(a: string, b: string, p: string)
    requires StartsWith(b, p)
    ensures Contains(a + b, p)
  {
    StartsWithContains(b, p);
    ContainsAppend(a, b, p);
  }

  lemma EndsWithSuffix(a: string, b: string)
    ensures EndsWith(a + b, b)
  {
    EndsWithMeaning(a + b, b);
    assert (a + b)[|a|..] == b;
  }

  lemma EndsWithContains(s: string, p: string)
    requires EndsWith(s, p)
    ensures Contains(s, p)
  {
    EndsWithMeaning(s, p);
    ContainsWitness(s, p, |s| - |p|);
  }

  /** Appending the same text to both keeps a suffix a suffix. */
  lemma EndsWithExtend(s: string, p: string, t: string)
    requires EndsWith(s, p)
    ensures EndsWith(s + t, p + t)
  {
    EndsWithMeaning(s, p);
    EndsWithMeaning(s + t, p + t);
    assert (s + t)[|s + t| - |p + t|..] == s[|s| - |p|..] + t;
  }

  /** A text ends with the last character of any of its suffixes. */
  lemma EndsWithLastChar(s: string, p: string)
    requires |p| > 0
    ensures EndsWith(s, p) ==> s[|s| - 1] == p[|p| - 1]
  {
    EndsWithMeaning(s, p);
    if EndsWith(s, p) {
      assert s[|s| - |p|..][|p| - 1] == s[|s| - 1];
    }
  }

  /** A text ending with `a + b` ends with `b`. */
  lemma EndsWithOfSuffix(s: string, a: string, b: string)
    requires EndsWith(s, a + b)
    ensures EndsWith(s, b)
  {
    EndsWithMeaning(s, a + b);
    EndsWithMeaning(s, b);
    assert s[|s| - |b|..] == s[|s| - |a + b|..][|a|..] == (a + b)[|a|..];
  }

  // ---------------------------------------------------------------------------
  // Texts assembled from pieces
  // ---------------------------------------------------------------------------

  lemma AppendAssoc<T>(a: seq<T>, b: seq<T>, c: seq<T>)
    ensures (a + b) + c == a + (b + c)
  {
  }

  function Concat(parts: seq<string>): string {
    if |parts| == 0 then "" else parts[0] + Concat(parts[1..])
  }

  /** Every piece of an assembled text occurs in it. */
  lemma {:induction false} ConcatContainsPart(parts: seq<string>, k: nat)
    requires k < |parts|
    ensures Contains(Concat(parts), parts[k])
    decreases k
  {
    if k == 0 {
      ContainsItself(parts[0]);
      ContainsAppend(parts[0], Concat(parts[1..]), parts[0]);
    } else {
      ConcatContainsPart(parts[1..], k - 1);
      ContainsAppend(parts[0], Concat(parts[1..]), parts[k]);
    }
  }

  /** Assembling two lists of pieces one after the other is assembling their concatenation. */
  lemma {:induction false} ConcatAppend(a: seq<string>, b: seq<string>)
    ensures Concat(a + b) == Concat(a) + Concat(b)
    decreases |a|
  {
    if |a| == 0 {
      assert a + b == b;
    } else {
      assert (a + b)[1..] == a[1..] + b;
      ConcatAppend(a[1..], b);
    }
  }

  /** A piece of a group inside a longer list of pieces occurs in the assembled text. */
  lemma ConcatGroupHoldsPart(a: seq<string>, parts: seq<string>, b: seq<string>, k: nat)
    requires k < |parts|
    ensures Contains(Concat(a + parts + b), parts[k])
  {
    ConcatContainsPart(parts, k);
    ConcatAppend(a + parts, b);
    ConcatAppend(a, parts);
    ContainsAppend(Concat(a), Concat(parts), parts[k]);
    ContainsAppend(Concat(a) + Concat(parts), Concat(b), parts[k]);
  }

  /** A text assembled around a word from pieces holds every piece. */
  lemma AroundContainsPart(head: string, word: string, parts: seq<string>, k: nat)
    requires k < |parts|
    ensures Contains(Around(head, word, Concat(parts)), parts[k])
  {
    ConcatContainsPart(parts, k);
    ContainsAppend(head + word, Concat(parts), parts[k]);
  }

  /** A text assembled around a word holds whatever its rest holds. */
  lemma AroundKeeps(head: string, word: string, rest: string, kw: string)
    requires Contains(rest, kw)
    ensures Contains(Around(head, word, rest), kw)
  {
    ContainsAppend(head + word, rest, kw);
  }

  /** An assembled text ends with its last piece. */
  lemma {:induction false} ConcatEndsWithLast(parts: seq<string>)
    requires |parts| > 0
    ensures EndsWith(Concat(parts), parts[|parts| - 1])
    decreases |parts|
  {
    if |parts| == 1 {
      assert Concat(parts) == parts[0] + "";
      EndsWithSuffix(parts[0], "");
      assert parts[0] + "" == parts[0];
      EndsWithMeaning(parts[0], parts[0]);
    } else {
      var rest := Concat(parts[1..]);
      ConcatEndsWithLast(parts[1..]);
      EndsWithMeaning(rest, parts[|parts| - 1]);
      EndsWithMeaning(parts[0] + rest, parts[|parts| - 1]);
      assert (parts[0] + rest)[|parts[0] + rest| - |parts[|parts| - 1]|..] == rest[|rest| - |parts[|parts| - 1]|..];
    }
  }

  /** Decimal rendering of a natural number, as Python's `str(n)`. */
  function NatText(n: nat): (r: string)
    ensures |r| > 0
    ensures forall k :: 0 <= k < |r| ==> '0' <= r[k] <= '9'
  {
    if n < 10 then [DigitChar(n)] else NatText(n / 10) + [DigitChar(n % 10)]
  }

  function DigitChar(d: nat): (c: char)
    requires d < 10
    ensures '0' <= c <= '9'
  {
    ['0', '1', '2', '3', '4', '5', '6', '7', '8', '9'][d]
  }

  /** Python's `s[:n]`. */
  function Take(s: string, n: nat): (r: string)
    ensures |r| == if |s| <= n then |s| else n
    ensures r == s[..|r|]
  {
    if |s| <= n then s else s[..n]
  }

  /** Number of occurrences of the character `c` in `s`. */
  function CountChar(s: string, c: char): nat
  {
    if |s| == 0 then 0 else (if s[0] == c then 1 else 0) + CountChar(s[1..], c)
  }

  lemma {:induction false} CountCharAppend(a: string, b: string, c: char)
    ensures CountChar(a + b, c) == CountChar(a, c) + CountChar(b, c)
    decreases |a|
  {
    if |a| > 0 {
      assert (a + b)[1..] == a[1..] + b;
      CountCharAppend(a[1..], b, c);
    } else {
      assert a + b == b;
    }
  }

  // ---------------------------------------------------------------------------
  // Case mapping (ASCII and the basic Cyrillic block)
  // ---------------------------------------------------------------------------

  predicate IsUpperChar(c: char) {
    ('A' <= c <= 'Z') || ('А' <= c <= 'Я') || ('Ѐ' <= c <= 'Џ')
  }

  predicate IsLowerChar(c: char) {
    ('a' <= c <= 'z') || ('а' <= c <= 'я') || ('ѐ' <= c <= 'џ')
  }

  /** A letter in the sense of Python's "cased" characters, restricted to the modelled blocks. */
  predicate IsCased(c: char) {
    IsUpperChar(c) || IsLowerChar(c)
  }

  function LowerChar(c: char): (r: char)
    ensures !IsUpperChar(r)
    ensures IsCased(r) <==> IsCased(c)
    ensures IsLowerChar(c) || !IsCased(c) ==> r == c
  {
    if ('A' <= c <= 'Z') || ('А' <= c <= 'Я') then (c as int + 32) as char
    else if 'Ѐ' <= c <= 'Џ' then (c as int + 80) as char
    else c
  }

  function UpperChar(c: char): (r: char)
    ensures !IsLowerChar(r)
    ensures IsCased(r) <==> IsCased(c)
    ensures IsUpperChar(c) || !IsCased(c) ==> r == c
  {
    if ('a' <= c <= 'z') || ('а' <= c <= 'я') then (c as int - 32) as char
    else if 'ѐ' <= c <= 'џ' then (c as int - 80) as char
    else c
  }

  lemma CaseRoundTrip(c: char)
    ensures IsUpperChar(c) ==> UpperChar(LowerChar(c)) == c
    ensures IsLowerChar(c) ==> LowerChar(UpperChar(c)) == c
  {
  }

  function LowerFrom(s: string, i: nat): (r: string)
    requires i <= |s|
    ensures |r| == |s| - i
    ensures forall k :: 0 <= k < |r| ==> r[k] == LowerChar(s[i + k])
    decreases |s| - i
  {
    if i == |s| then [] else [LowerChar(s[i])] + LowerFrom(s, i + 1)
  }

  function UpperFrom(s: string, i: nat): (r: string)
    requires i <= |s|
    ensures |r| == |s| - i
    ensures forall k :: 0 <= k < |r| ==> r[k] == UpperChar(s[i + k])
    decreases |s| - i
  {
    if i == |s| then [] else [UpperChar(s[i])] + UpperFrom(s, i + 1)
  }

  /** Python's `s.lower()` on the modelled blocks. */
  function Lower(s: string): string { LowerFrom(s, 0) }

  /** Python's `s.upper()` on the modelled blocks. */
  function Upper(s: string): string { UpperFrom(s, 0) }

  lemma LowerIdempotent(s: string)
    ensures Lower(Lower(s)) == Lower(s)
  {
  }

  lemma UpperIdempotent(s: string)
    ensures Upper(Upper(s)) == Upper(s)
  {
  }

  lemma LowerAppend(a: string, b: string)
    ensures Lower(a + b) == Lower(a) + Lower(b)
  {
  }

  /** Upper-casing keeps every occurrence, upper-cased. */
  lemma UpperContains(s: string, kw: string)
    requires Contains(s, kw)
    ensures Contains(Upper(s), Upper(kw))
  {
    ContainsMeaning(s, kw);
    var k :| OccursAt(s, kw, k);
    var u := Upper(s);
    forall j | 0 <= j < |kw| ensures u[k + j] == Upper(kw)[j] {
      assert s[k + j] == kw[j];
    }
    assert u[k..k + |kw|] == Upper(kw);
    ContainsWitness(u, Upper(kw), k);
  }

  lemma UpperAppend(a: string, b: string)
    ensures Upper(a + b) == Upper(a) + Upper(b)
  {
  }

  // ---------------------------------------------------------------------------
  // Whitespace and stripping (Python's str.isspace / strip / rstrip)
  // ---------------------------------------------------------------------------

  /** The characters for which Python's `str.isspace()` holds. */
  predicate IsSpace(c: char) {
    ('\t' <= c <= '\r') || ('\U{1C}' <= c <= ' ') || c == '\U{85}' || c == '\U{A0}' || c == '\U{1680}'
    || ('\U{2000}' <= c <= '\U{200A}') || c == '\U{2028}' || c == '\U{2029}' || c == '\U{202F}'
    || c == '\U{205F}' || c == '\U{3000}'
  }

  predicate AllSpace(s: string) {
    forall k :: 0 <= k < |s| ==> IsSpace(s[k])
  }

  /** Index of the first non-space character at or after `i`. */
  function SkipSpaces(s: string, i: nat): (r: nat)
    requires i <= |s|
    ensures i <= r <= |s|
    ensures forall k :: i <= k < r ==> IsSpace(s[k])
    ensures r < |s| ==> !IsSpace(s[r])
    decreases |s| - i
  {
    if i < |s| && IsSpace(s[i]) then SkipSpaces(s, i + 1) else i
  }

  /** End of `s[..j]` once its trailing spaces are dropped. */
  function TrimEnd(s: string, j: nat): (r: nat)
    requires j <= |s|
    ensures r <= j
    ensures forall k :: r <= k < j ==> IsSpace(s[k])
    ensures r > 0 ==> !IsSpace(s[r - 1])
    decreases j
  {
    if j > 0 && IsSpace(s[j - 1]) then TrimEnd(s, j - 1) else j
  }

  function LStrip(s: string): string { s[SkipSpaces(s, 0)..] }

  function RStrip(s: string): string { s[..TrimEnd(s, |s|)] }

  function Strip(s: string): string { RStrip(LStrip(s)) }

  /** The shape of a stripped text: nothing blank at either end. */
  predicate Trimmed(s: string) {
    |s| == 0 || (!IsSpace(s[0]) && !IsSpace(s[|s| - 1]))
  }

  lemma RStripShape(s: string)
    ensures RStrip(s) == s[..|RStrip(s)|]
    ensures AllSpace(s[|RStrip(s)|..])
    ensures |RStrip(s)| == 0 || !IsSpace(RStrip(s)[|RStrip(s)| - 1])
  {
    var n := TrimEnd(s, |s|);
    forall k | 0 <= k < |s[n..]| ensures IsSpace(s[n..][k]) {
      assert s[n..][k] == s[n + k];
    }
  }

  /** `Strip(s)` is the slice of `s` between its leading and trailing blanks. */
  lemma StripSlice(s: string)
    ensures SkipSpaces(s, 0) + |Strip(s)| <= |s|
    ensures Strip(s) == s[SkipSpaces(s, 0)..SkipSpaces(s, 0) + |Strip(s)|]
  {
    var i := SkipSpaces(s, 0);
    var l := s[i..];
    var n := TrimEnd(l, |l|);
    assert Strip(s) == l[..n];
    assert l[..n] == s[i..i + n];
  }

  lemma StripShape(s: string)
    ensures Trimmed(Strip(s))
    ensures Contains(s, Strip(s))
  {
    StripSlice(s);
    ContainsWitness(s, Strip(s), SkipSpaces(s, 0));
  }

  /** Only an all-blank text strips to nothing. */
  lemma StripEmptyIff(s: string)
    ensures AllSpace(s) <==> Strip(s) == ""
  {
    var i := SkipSpaces(s, 0);
    if !AllSpace(s) {
      var k :| 0 <= k < |s| && !IsSpace(s[k]);
      var l := s[i..];
      assert l[k - i] == s[k];
    }
  }

  lemma RStripOfTrimmedEnd(s: string)
    requires |s| == 0 || !IsSpace(s[|s| - 1])
    ensures RStrip(s) == s
  {
  }

  lemma StripOfTrimmed(s: string)
    requires Trimmed(s)
    ensures Strip(s) == s
  {
    assert SkipSpaces(s, 0) == 0;
    assert s[0..] == s;
  }

  lemma StripIdempotent(s: string)
    ensures Strip(Strip(s)) == Strip(s)
  {
    StripShape(s);
    StripOfTrimmed(Strip(s));
  }

  // ---------------------------------------------------------------------------
  // Splitting on newlines and joining
  // ---------------------------------------------------------------------------

  /** Index of the first `c` in `s` at or after `i`, or `|s|`. */
  function FindChar(s: string, c: char, i: nat): (r: nat)
    requires i <= |s|
    ensures i <= r <= |s|
    ensures forall k :: i <= k < r ==> s[k] != c
    ensures r < |s| ==> s[r] == c
    decreases |s| - i
  {
    if i == |s| || s[i] == c then i else FindChar(s, c, i + 1)
  }

  /** Python's `s.split('\n')`: never empty, pieces hold no newline. */
  function SplitLines(s: string): (r: seq<string>)
    ensures |r| > 0
    ensures forall k :: 0 <= k < |r| ==> '\n' !in r[k]
    decreases |s|
  {
    var k := FindChar(s, '\n', 0);
    if k == |s| then [s] else [s[..k]] + SplitLines(s[k + 1..])
  }

  /** Python's `sep.join(parts)`. */
  function Join(parts: seq<string>, sep: string): string
  {
    if |parts| == 0 then "" else if |parts| == 1 then parts[0] else parts[0] + sep + Join(parts[1..], sep)
  }

  lemma {:induction false} JoinSplit(s: string)
    ensures Join(SplitLines(s), "\n") == s
    decreases |s|
  {
    var k := FindChar(s, '\n', 0);
    if k < |s| {
      var rest := s[k + 1..];
      JoinSplit(rest);
      var r := SplitLines(s);
      assert r == [s[..k]] + SplitLines(rest);
      assert r[1..] == SplitLines(rest);
      assert s == s[..k] + "\n" + rest;
    }
  }

  lemma {:induction false} SplitJoin(parts: seq<string>)
    requires |parts| > 0
    requires forall k :: 0 <= k < |parts| ==> '\n' !in parts[k]
    ensures SplitLines(Join(parts, "\n")) == parts
    decreases |parts|
  {
    var s := Join(parts, "\n");
    if |parts| == 1 {
      assert FindChar(s, '\n', 0) == |s|;
    } else {
      var p := parts[0];
      var rest := Join(parts[1..], "\n");
      assert s == p + "\n" + rest;
      var k := FindChar(s, '\n', 0);
      assert forall m :: 0 <= m < |p| ==> s[m] == p[m];
      assert s[|p|] == '\n';
      assert k == |p|;
      assert s[..k] == p;
      assert s[k + 1..] == rest;
      SplitJoin(parts[1..]);
    }
  }

  lemma {:induction false} JoinNoNewline(parts: seq<string>, sep: string)
    requires '\n' !in sep
    requires forall k :: 0 <= k < |parts| ==> '\n' !in parts[k]
    ensures '\n' !in Join(parts, sep)
    decreases |parts|
  {
    if |parts| > 1 {
      JoinNoNewline(parts[1..], sep);
    }
  }

  /** A text that does not start with a newline starts its first line. */
  lemma SplitFirstChar(s: string)
    requires |s| > 0 && s[0] != '\n'
    ensures |SplitLines(s)[0]| > 0 && SplitLines(s)[0][0] == s[0]
  {
  }

  /** A text that does not end with a newline ends its last line. */
  lemma {:induction false} SplitLastChar(s: string)
    requires |s| > 0 && s[|s| - 1] != '\n'
    ensures var r := SplitLines(s); |r[|r| - 1]| > 0 && r[|r| - 1][|r[|r| - 1]| - 1] == s[|s| - 1]
    decreases |s|
  {
    var k := FindChar(s, '\n', 0);
    if k < |s| {
      var rest := s[k + 1..];
      assert rest[|rest| - 1] == s[|s| - 1];
      SplitLastChar(rest);
      assert SplitLines(s) == [s[..k]] + SplitLines(rest);
    }
  }

  /** A join starts with the first part when that part is not empty. */
  lemma JoinFirstChar(parts: seq<string>, sep: string)
    requires |parts| > 0 && |parts[0]| > 0
    ensures |Join(parts, sep)| > 0 && Join(parts, sep)[0] == parts[0][0]
  {
  }

  /** A join ends with the last part when that part is not empty. */
  lemma {:induction false} JoinLastChar(parts: seq<string>, sep: string)
    requires |parts| > 0 && |parts[|parts| - 1]| > 0
    ensures var j := Join(parts, sep); var p := parts[|parts| - 1]; |j| > 0 && j[|j| - 1] == p[|p| - 1]
    decreases |parts|
  {
    if |parts| > 1 {
      JoinLastChar(parts[1..], sep);
    }
  }

  // ---------------------------------------------------------------------------
  // Python's `s.replace(pat, rep)` for a non-empty `pat`
  // ---------------------------------------------------------------------------

  function ReplaceFrom(s: string, pat: string, rep: string, i: nat): string
    requires |pat| > 0
    decreases |s| - i
  {
    if i >= |s| then []
    else if i + |pat| <= |s| && MatchAt(s, pat, i, 0) then rep + ReplaceFrom(s, pat, rep, i + |pat|)
    else [s[i]] + ReplaceFrom(s, pat, rep, i + 1)
  }

  function Replace(s: string, pat: string, rep: string): string
    requires |pat| > 0
  {
    ReplaceFrom(s, pat, rep, 0)
  }

  lemma {:induction false} ReplaceAbsentFrom(s: string, pat: string, rep: string, i: nat)
    requires |pat| > 0 && i <= |s| && !ContainsFrom(s, pat, i)
    ensures ReplaceFrom(s, pat, rep, i) == s[i..]
    decreases |s| - i
  {
    if i < |s| {
      if i + |pat| <= |s| {
        assert !ContainsFrom(s, pat, i + 1);
      } else if i + 1 + |pat| <= |s| {
        assert false;
      }
      if i + 1 + |pat| > |s| {
        ReplaceAbsentTail(s, pat, rep, i + 1);
      } else {
        ReplaceAbsentFrom(s, pat, rep, i + 1);
      }
      assert s[i..] == [s[i]] + s[i + 1..];
    }
  }

  lemma {:induction false} ReplaceAbsentTail(s: string, pat: string, rep: string, i: nat)
    requires |pat| > 0 && i <= |s| && i + |pat| > |s|
    ensures ReplaceFrom(s, pat, rep, i) == s[i..]
    decreases |s| - i
  {
    if i < |s| {
      ReplaceAbsentTail(s, pat, rep, i + 1);
      assert s[i..] == [s[i]] + s[i + 1..];
    }
  }

  /** Replacing a string that does not occur changes nothing. */
  lemma ReplaceAbsent(s: string, pat: string, rep: string)
    requires |pat| > 0 && !Contains(s, pat)
    ensures Replace(s, pat, rep) == s
  {
    ReplaceAbsentFrom(s, pat, rep, 0);
  }

  lemma {:induction false} ReplaceCharFrom(s: string, a: char, b: char, i: nat)
    requires i <= |s|
    ensures |ReplaceFrom(s, [a], [b], i)| == |s| - i
    ensures forall k :: 0 <= k < |s| - i ==>
      ReplaceFrom(s, [a], [b], i)[k] == (if s[i + k] == a then b else s[i + k])
    decreases |s| - i
  {
    if i < |s| {
      ReplaceCharHead(s, a, b, i);
      ReplaceCharFrom(s, a, b, i + 1);
      var rest := ReplaceFrom(s, [a], [b], i + 1);
      var r := ReplaceFrom(s, [a], [b], i);
      forall k | 0 <= k < |s| - i
        ensures r[k] == (if s[i + k] == a then b else s[i + k])
      {
        if k > 0 {
          assert r[k] == rest[k - 1];
        }
      }
    }
  }

  /** One step of replacing a single character. */
  lemma ReplaceCharHead(s: string, a: char, b: char, i: nat)
    requires i < |s|
    ensures ReplaceFrom(s, [a], [b], i) == [if s[i] == a then b else s[i]] + ReplaceFrom(s, [a], [b], i + 1)
  {
    assert MatchAt(s, [a], i, 0) <==> s[i] == a;
  }

  /** Replacing one character by another maps the text character by character. */
  lemma ReplaceChar(s: string, a: char, b: char)
    ensures |Replace(s, [a], [b])| == |s|
    ensures forall k :: 0 <= k < |s| ==> Replace(s, [a], [b])[k] == (if s[k] == a then b else s[k])
  {
    ReplaceCharFrom(s, a, b, 0);
  }
}
