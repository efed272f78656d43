/** The labelled-field extractor applied to Document AI text, in
    `legacy_experiments/docai.py` (process_pdf) and, with the same four
    patterns, in `legacy_experiments/batch_pipeline.py` (ProcessPdfFn).

    Each pattern is a fixed literal label followed by a capture group
    `([class]+)`. `re.search` finds the leftmost position where the label
    occurs AND is followed by at least one character of the class, and the
    greedy `+` then takes the longest run of class characters there. */
module Extraction {
  import opened Outcomes
  import opened Text

  /** The three character classes of the capture groups:
      `[a-zA-Z0-9\-]`, `[\d]` and `[\d\-]` (ASCII digits only). */
  datatype CharClass = IdChars | Digits | DateChars

  predicate InClass(c: char, k: CharClass) {
    match k
    case IdChars => IsAsciiLetter(c) || IsDigit(c) || c == '-'
    case Digits => IsDigit(c)
    case DateChars => IsDigit(c) || c == '-'
  }

  const IdLabel: string := "Applicant ID: "
  const IncomeLabel: string := "Declared Annual Income: $"
  const LoanLabel: string := "Requested Loan Amount: $"
  const DateLabel: string := "Application Date: "

  /** No label and no character class contains a line break. */
  lemma SingleLineLabels()
    ensures '\n' !in IdLabel && '\n' !in IncomeLabel && '\n' !in LoanLabel && '\n' !in DateLabel
    ensures !InClass('\n', IdChars) && !InClass('\n', Digits) && !InClass('\n', DateChars)
  {
  }

  // ---------------------------------------------------------------------
  // Reference semantics of `re.search(marker + "([class]+)", text)`
  // ---------------------------------------------------------------------

  /** The pattern matches at `i`: the label sits at `i` and one class
      character follows it. */
  predicate MatchesAt(text: string, marker: string, k: CharClass, i: nat) {
    && i + |marker| < |text|
    && text[i..i + |marker|] == marker
    && InClass(text[i + |marker|], k)
  }

  predicate NoMatch(text: string, marker: string, k: CharClass) {
    forall i: nat | i < |text| :: !MatchesAt(text, marker, k, i)
  }

  /** `i` is the leftmost position where the pattern matches. */
  predicate IsLeftmost(text: string, marker: string, k: CharClass, i: nat) {
    && MatchesAt(text, marker, k, i)
    && forall j: nat | j < i :: !MatchesAt(text, marker, k, j)
  }

  /** `v` is the longest non-empty run of class characters starting at `p`. */
  predicate IsMaximalRun(text: string, p: nat, v: string, k: CharClass) {
    && |v| > 0
    && p + |v| <= |text|
    && text[p..p + |v|] == v
    && (forall c | c in v :: InClass(c, k))
    && (p + |v| == |text| || !InClass(text[p + |v|], k))
  }

  /** `v` is what group(1) holds: the maximal run after the leftmost match. */
  predicate LeftmostCapture(text: string, marker: string, k: CharClass, v: string) {
    exists i: nat | i < |text| ::
      IsLeftmost(text, marker, k, i) && IsMaximalRun(text, i + |marker|, v, k)
  }

  // ---------------------------------------------------------------------
  // The search itself
  // ---------------------------------------------------------------------

  /** Length of the longest prefix of `s` made of class characters. */
  function RunLength(s: string, k: CharClass): (n: nat)
    ensures n <= |s|
    ensures forall i | 0 <= i < n :: InClass(s[i], k)
    ensures n < |s| ==> !InClass(s[n], k)
    decreases |s|
  {
    if |s| == 0 || !InClass(s[0], k) then 0 else 1 + RunLength(s[1..], k)
  }

  /** Matches of a suffix are the matches of the whole text, shifted. */
  lemma {:induction false} MatchShift(t: string, off: nat, b: string, marker: string, k: CharClass, j: nat)
    requires off <= |t| && t[off..] == b
    ensures MatchesAt(t, marker, k, off + j) <==> MatchesAt(b, marker, k, j)
  {
    if j + |marker| < |b| {
      var u, w := t[off + j..off + j + |marker|], b[j..j + |marker|];
      forall x | 0 <= x < |u| ensures u[x] == w[x] {
        assert b[j + x] == t[off + j + x];
      }
      assert u == w;
      assert b[j + |marker|] == t[off + j + |marker|];
    }
  }

  /** Position of the leftmost match, scanning left to right as the regular
      expression engine does. */
  function Find(text: string, marker: string, k: CharClass): (r: Option<nat>)
    ensures r.None? <==> NoMatch(text, marker, k)
    ensures r.Some? ==> r.value < |text| && IsLeftmost(text, marker, k, r.value)
    decreases |text|
  {
    if |text| <= |marker| then None
    else if MatchesAt(text, marker, k, 0) then Some(0)
    else
      var r := Find(text[1..], marker, k);
      FindStep(text, marker, k, r);
      if r.None? then None else Some(r.value + 1)
  }

  /** One step of the scan: no match at 0, so the result is the tail's,
      shifted by one. */
  lemma {:induction false} FindStep(text: string, marker: string, k: CharClass, r: Option<nat>)
    requires |text| > 0 && !MatchesAt(text, marker, k, 0)
    requires r.None? <==> NoMatch(text[1..], marker, k)
    requires r.Some? ==> r.value < |text| - 1 && IsLeftmost(text[1..], marker, k, r.value)
    ensures r.None? <==> NoMatch(text, marker, k)
    ensures r.Some? ==> IsLeftmost(text, marker, k, r.value + 1)
  {
    forall m: nat | 0 < m < |text|
      ensures MatchesAt(text, marker, k, m) <==> MatchesAt(text[1..], marker, k, m - 1)
    {
      MatchShift(text, 1, text[1..], marker, k, m - 1);
    }
    if r.None? {
      forall m: nat | m < |text| ensures !MatchesAt(text, marker, k, m) {
        if m > 0 {
          assert !MatchesAt(text[1..], marker, k, m - 1);
        }
      }
    } else {
      assert MatchesAt(text, marker, k, r.value + 1);
      forall m: nat | m < r.value + 1 ensures !MatchesAt(text, marker, k, m) {
        if m > 0 {
          assert !MatchesAt(text[1..], marker, k, m - 1);
        }
      }
    }
  }

  /** `m.group(1) if m else None` for `m = re.search(marker + "([class]+)", text)`. */
  function Group(text: string, marker: string, k: CharClass): (r: Option<string>)
    ensures r.None? <==> NoMatch(text, marker, k)
    ensures r.Some? ==> LeftmostCapture(text, marker, k, r.value)
    ensures r.Some? ==> IsMaximalRun(text, Find(text, marker, k).value + |marker|, r.value, k)
  {
    match Find(text, marker, k)
    case None => None
    case Some(i) =>
      var p := i + |marker|;
      var n := RunLength(text[p..], k);
      var v := text[p..p + n];
      assert text[p..][..n] == v;
      assert IsMaximalRun(text, p, v, k);
      Some(v)
  }

  /** The leftmost capture is unique: the reference semantics determines
      group(1). */
  lemma {:induction false} LeftmostCaptureUnique(text: string, marker: string, k: CharClass, v: string, w: string)
    requires LeftmostCapture(text, marker, k, v)
    requires LeftmostCapture(text, marker, k, w)
    ensures v == w
  {
    var i := CaptureWitness(text, marker, k, v);
    var j := CaptureWitness(text, marker, k, w);
    LeftmostUnique(text, marker, k, i, j);
    MaximalRunUnique(text, i + |marker|, v, w, k);
  }

  lemma CaptureWitness(text: string, marker: string, k: CharClass, v: string) returns (i: nat)
    requires LeftmostCapture(text, marker, k, v)
    ensures i < |text| && IsLeftmost(text, marker, k, i) && IsMaximalRun(text, i + |marker|, v, k)
  {
    i :| i < |text| && IsLeftmost(text, marker, k, i) && IsMaximalRun(text, i + |marker|, v, k);
  }

  lemma LeftmostUnique(text: string, marker: string, k: CharClass, i: nat, j: nat)
    requires IsLeftmost(text, marker, k, i) && IsLeftmost(text, marker, k, j)
    ensures i == j
  {
  }

  /** Two maximal runs from the same position are the same run. */
  lemma {:induction false} MaximalRunUnique(text: string, p: nat, v: string, w: string, k: CharClass)
    requires IsMaximalRun(text, p, v, k) && IsMaximalRun(text, p, w, k)
    ensures v == w
  {
    if |v| == |w| {
      assert text[p..p + |v|] == text[p..p + |w|];
    }
  }

  // ---------------------------------------------------------------------
  // process_pdf's four fields
  // ---------------------------------------------------------------------

  /** The row process_pdf returns: `customer_id` and `app_date` default to
      None, `income` and `loan_amount` to 0. */
  datatype ApplicationFields = ApplicationFields(
    customerId: Option<string>,
    income: nat,
    loanAmount: nat,
    appDate: Option<string>)

  /** CPython's default `sys.get_int_max_str_digits()`: `int()` of a
      decimal string with more digits raises ValueError (CPython 3.11 on,
      and the 3.7 to 3.10 security releases that carry the limit). */
  const MaxStrDigits: nat := 4300

  function IntLimitMessage(digits: nat): string {
    "Exceeds the limit (4300 digits) for integer string conversion: value has "
      + ShowNat(digits) + " digits; use sys.set_int_max_str_digits() to increase the limit"
  }

  /** The digits pattern captures a run too long for `int()`. */
  ghost predicate Overlong(text: string, marker: string) {
    exists d | LeftmostCapture(text, marker, Digits, d) :: |d| > MaxStrDigits
  }

  /** Without a match there is nothing captured. */
  lemma NoCaptureWithoutMatch(text: string, marker: string, k: CharClass)
    requires NoMatch(text, marker, k)
    ensures forall d :: !LeftmostCapture(text, marker, k, d)
  {
    forall d ensures !LeftmostCapture(text, marker, k, d) {
      if LeftmostCapture(text, marker, k, d) {
        var i := CaptureWitness(text, marker, k, d);
      }
    }
  }

  /** The capture is unique, so its length alone decides the limit. */
  lemma CaptureDecidesOverlong(text: string, marker: string, d: string)
    requires LeftmostCapture(text, marker, Digits, d)
    ensures Overlong(text, marker) <==> |d| > MaxStrDigits
  {
    forall e | LeftmostCapture(text, marker, Digits, e) ensures e == d {
      LeftmostCaptureUnique(text, marker, Digits, e, d);
    }
  }

  /** `int(m.group(1)) if m else 0` for a digits pattern: 0 without a
      match, the value of the captured digits otherwise, and ValueError
      when the capture is longer than `MaxStrDigits`. */
  function Amount(text: string, marker: string): (r: Result<nat>)
    ensures r.Raised? <==> Overlong(text, marker)
    ensures NoMatch(text, marker, Digits) ==> r == Ok(0)
    ensures r.Ok? && !NoMatch(text, marker, Digits) ==>
      exists d | LeftmostCapture(text, marker, Digits, d) ::
        AllDigits(d) && |d| <= MaxStrDigits && r.value == DecimalValue(d)
  {
    match Group(text, marker, Digits)
    case None =>
      NoCaptureWithoutMatch(text, marker, Digits);
      Ok(0)
    case Some(d) =>
      assert AllDigits(d) by {
        forall i | 0 <= i < |d| ensures IsDigit(d[i]) {
          assert d[i] in d;
        }
      }
      CaptureDecidesOverlong(text, marker, d);
      if |d| > MaxStrDigits then Raised(IntLimitMessage(|d|)) else Ok(DecimalValue(d))
  }

  /** The four extractions, each defaulting independently of the others;
      the `try` fails exactly when one of the two `int()` calls raises. */
  function ExtractFields(text: string): (r: Result<ApplicationFields>)
    ensures r.Raised? <==> Overlong(text, IncomeLabel) || Overlong(text, LoanLabel)
    ensures r.Ok? ==> (r.value.customerId.None? <==> NoMatch(text, IdLabel, IdChars))
    ensures r.Ok? && r.value.customerId.Some? ==>
      LeftmostCapture(text, IdLabel, IdChars, r.value.customerId.value)
    ensures r.Ok? && NoMatch(text, IncomeLabel, Digits) ==> r.value.income == 0
    ensures r.Ok? && !NoMatch(text, IncomeLabel, Digits) ==>
      exists d | LeftmostCapture(text, IncomeLabel, Digits, d) :: AllDigits(d) && r.value.income == DecimalValue(d)
    ensures r.Ok? && NoMatch(text, LoanLabel, Digits) ==> r.value.loanAmount == 0
    ensures r.Ok? && !NoMatch(text, LoanLabel, Digits) ==>
      exists d | LeftmostCapture(text, LoanLabel, Digits, d) :: AllDigits(d) && r.value.loanAmount == DecimalValue(d)
    ensures r.Ok? ==> (r.value.appDate.None? <==> NoMatch(text, DateLabel, DateChars))
    ensures r.Ok? && r.value.appDate.Some? ==>
      LeftmostCapture(text, DateLabel, DateChars, r.value.appDate.value)
  {
    match Amount(text, IncomeLabel)
    case Raised(m) => Raised(m)
    case Ok(income) =>
      match Amount(text, LoanLabel)
      case Raised(m) => Raised(m)
      case Ok(loanAmount) =>
        Ok(ApplicationFields(
          Group(text, IdLabel, IdChars),
          income,
          loanAmount,
          Group(text, DateLabel, DateChars)))
  }

  /** A printed number short enough for `int()` is read back as itself. */
  lemma PrintedAmount(text: string, marker: string, n: nat)
    requires Group(text, marker, Digits) == Some(ShowNat(n))
    requires |ShowNat(n)| <= MaxStrDigits
    ensures Amount(text, marker) == Ok(n)
  {
    DecimalRoundTrip(n);
  }

  /** The row is assembled from the four extractions. */
  lemma FieldsFromParts(text: string, id: string, income: nat, loanAmount: nat, date: string)
    requires Group(text, IdLabel, IdChars) == Some(id)
    requires Amount(text, IncomeLabel) == Ok(income)
    requires Amount(text, LoanLabel) == Ok(loanAmount)
    requires Group(text, DateLabel, DateChars) == Some(date)
    ensures ExtractFields(text) == Ok(ApplicationFields(Some(id), income, loanAmount, Some(date)))
  {
  }

  /** An income of more than 4300 digits makes process_pdf's `try` fail:
      `int()` raises ValueError. */
  lemma LongIncomeRaises(digits: string)
    requires AllDigits(digits) && |digits| > MaxStrDigits
    ensures ExtractFields(IncomeLabel + digits).Raised?
  {
    assert forall c | c in digits :: InClass(c, Digits);
    GroupAtStart(IncomeLabel, digits, "", Digits);
    assert IncomeLabel + digits + "" == IncomeLabel + digits;
  }

  // ---------------------------------------------------------------------
  // Lemmas for computing a search over text assembled from pieces
  // ---------------------------------------------------------------------

  /** A match found in the leftmost-capture sense is what Group returns. */
  lemma {:induction false} GroupIsCapture(text: string, marker: string, k: CharClass, i: nat, v: string)
    requires i < |text| && IsLeftmost(text, marker, k, i)
    requires IsMaximalRun(text, i + |marker|, v, k)
    ensures Group(text, marker, k) == Some(v)
  {
    var r := Group(text, marker, k);
    assert LeftmostCapture(text, marker, k, v);
    LeftmostCaptureUnique(text, marker, k, r.value, v);
  }

  /** The label occurs at the very start, followed by a maximal run `v`. */
  lemma {:induction false} GroupAtStart(marker: string, v: string, rest: string, k: CharClass)
    requires |v| > 0 && forall c | c in v :: InClass(c, k)
    requires |rest| == 0 || !InClass(rest[0], k)
    ensures Group(marker + v + rest, marker, k) == Some(v)
  {
    var text := marker + v + rest;
    assert text[..|marker|] == marker;
    assert text[|marker|] == v[0];
    assert v[0] in v;
    assert MatchesAt(text, marker, k, 0);
    assert text[|marker|..|marker| + |v|] == v;
    if |rest| > 0 {
      assert text[|marker| + |v|] == rest[0];
    }
    GroupIsCapture(text, marker, k, 0, v);
  }

  /** A text that lacks the label's first character holds no match. */
  lemma {:induction false} GroupAbsent(text: string, marker: string, k: CharClass)
    requires |marker| > 0 && marker[0] !in text
    ensures Group(text, marker, k) == None
  {
    forall i: nat | i < |text| ensures !MatchesAt(text, marker, k, i) {
      if i + |marker| < |text| {
        assert text[i..i + |marker|][0] == text[i];
      }
    }
  }

  /** A maximal run in a suffix is a maximal run in the whole text. */
  lemma {:induction false} RunShift(t: string, off: nat, b: string, p: nat, v: string, k: CharClass)
    requires off <= |t| && t[off..] == b
    requires IsMaximalRun(b, p, v, k)
    ensures IsMaximalRun(t, off + p, v, k)
  {
    assert |t| == off + |b|;
    forall x | 0 <= x < |b| ensures t[off + x] == b[x] {
      assert t[off..][x] == t[off + x];
    }
    assert t[off + p..off + p + |v|] == b[p..p + |v|];
    if p + |v| < |b| {
      assert t[off + p + |v|] == b[p + |v|];
    }
  }

  lemma {:induction false} NoMatchSuffix(t: string, off: nat, b: string, marker: string, k: CharClass)
    requires off <= |t| && t[off..] == b
    requires forall i: nat | i < off :: !MatchesAt(t, marker, k, i)
    requires NoMatch(b, marker, k)
    ensures NoMatch(t, marker, k)
  {
    forall i: nat | off <= i < |t| ensures !MatchesAt(t, marker, k, i) {
      MatchShift(t, off, b, marker, k, i - off);
    }
  }

  lemma {:induction false} LeftmostSuffix(t: string, off: nat, b: string, marker: string, k: CharClass, j: nat)
    requires off <= |t| && t[off..] == b
    requires forall i: nat | i < off :: !MatchesAt(t, marker, k, i)
    requires IsLeftmost(b, marker, k, j)
    ensures IsLeftmost(t, marker, k, off + j)
  {
    MatchShift(t, off, b, marker, k, j);
    forall m: nat | off <= m < off + j ensures !MatchesAt(t, marker, k, m) {
      MatchShift(t, off, b, marker, k, m - off);
    }
  }

  /** A maximal run inside a prefix that is followed by a non-class
      character is a maximal run in the whole text. */
  lemma {:induction false} RunPrefix(t: string, a: string, p: nat, v: string, k: CharClass)
    requires |a| < |t| && t[..|a|] == a && !InClass(t[|a|], k)
    requires IsMaximalRun(a, p, v, k)
    ensures IsMaximalRun(t, p, v, k)
  {
    assert t[p..p + |v|] == a[p..p + |v|];
    if p + |v| < |a| {
      assert t[p + |v|] == a[p + |v|];
    }
  }

  /** Searching a text in which no match starts before `off` is searching
      its suffix from `off`. */
  lemma {:induction false} GroupSuffix(t: string, off: nat, b: string, marker: string, k: CharClass)
    requires off <= |t| && t[off..] == b
    requires forall i: nat | i < off :: !MatchesAt(t, marker, k, i)
    ensures Group(t, marker, k) == Group(b, marker, k)
  {
    var r := Find(b, marker, k);
    if r.None? {
      NoMatchSuffix(t, off, b, marker, k);
    } else {
      SuffixKeepsCapture(t, off, b, marker, k, r.value, Group(b, marker, k).value);
    }
  }

  /** The leftmost match and its run in the suffix, shifted by `off`, are
      the leftmost match and its run in the whole text. */
  lemma {:induction false} SuffixKeepsCapture(t: string, off: nat, b: string, marker: string, k: CharClass, j: nat, v: string)
    requires off <= |t| && t[off..] == b
    requires forall i: nat | i < off :: !MatchesAt(t, marker, k, i)
    requires j < |b| && IsLeftmost(b, marker, k, j) && IsMaximalRun(b, j + |marker|, v, k)
    ensures Group(t, marker, k) == Some(v)
  {
    LeftmostSuffix(t, off, b, marker, k, j);
    RunShift(t, off, b, j + |marker|, v, k);
    GroupIsCapture(t, marker, k, off + j, v);
  }

  /** A prefix in which no match starts can be dropped. */
  lemma {:induction false} GroupSkip(a: string, b: string, marker: string, k: CharClass)
    requires forall i: nat | i < |a| :: !MatchesAt(a + b, marker, k, i)
    ensures Group(a + b, marker, k) == Group(b, marker, k)
  {
    GroupSuffix(a + b, |a|, b, marker, k);
  }

  /** Dropping one leading character at which the pattern does not match. */
  lemma {:induction false} GroupSkipOne(text: string, marker: string, k: CharClass)
    requires |text| > 0 && !MatchesAt(text, marker, k, 0)
    ensures Group(text, marker, k) == Group(text[1..], marker, k)
  {
    GroupSuffix(text, 1, text[1..], marker, k);
  }

  /** A window that reaches the line break holds no match. */
  lemma {:induction false} NoMatchAcrossBreak(a: string, b: string, marker: string, k: CharClass, i: nat)
    requires '\n' !in marker && !InClass('\n', k)
    requires i <= |a| && |a| <= i + |marker|
    ensures !MatchesAt(a + "\n" + b, marker, k, i)
  {
    var t := a + "\n" + b;
    assert t[|a|] == '\n';
    if i + |marker| < |t| && |a| < i + |marker| {
      assert t[i..i + |marker|][|a| - i] == '\n';
    }
  }

  /** A window that ends before the line break sees the first line only. */
  lemma {:induction false} MatchBeforeBreak(a: string, b: string, marker: string, k: CharClass, i: nat)
    requires i + |marker| < |a|
    ensures MatchesAt(a + "\n" + b, marker, k, i) <==> MatchesAt(a, marker, k, i)
  {
    var t := a + "\n" + b;
    assert t[i..i + |marker|] == a[i..i + |marker|];
    assert t[i + |marker|] == a[i + |marker|];
  }

  /** Up to the line break, matches in the broken text are matches in the
      first line. */
  lemma {:induction false} LeftmostBeforeBreak(a: string, b: string, marker: string, k: CharClass, i: nat)
    requires '\n' !in marker && !InClass('\n', k)
    requires IsLeftmost(a, marker, k, i)
    ensures IsLeftmost(a + "\n" + b, marker, k, i)
  {
    MatchBeforeBreak(a, b, marker, k, i);
    forall m: nat | m < i ensures !MatchesAt(a + "\n" + b, marker, k, m) {
      MatchBeforeBreak(a, b, marker, k, m);
    }
  }

  lemma {:induction false} NoMatchBeforeBreak(a: string, b: string, marker: string, k: CharClass)
    requires '\n' !in marker && !InClass('\n', k)
    requires NoMatch(a, marker, k)
    ensures forall i: nat | i < |a| + 1 :: !MatchesAt(a + "\n" + b, marker, k, i)
  {
    forall i: nat | i < |a| + 1 ensures !MatchesAt(a + "\n" + b, marker, k, i) {
      if i + |marker| < |a| {
        MatchBeforeBreak(a, b, marker, k, i);
      } else {
        NoMatchAcrossBreak(a, b, marker, k, i);
      }
    }
  }

  /** A line break ends every match, so searching text broken at a line
      searches the first line, then the rest. */
  lemma {:induction false} GroupAcrossLine(a: string, b: string, marker: string, k: CharClass)
    requires '\n' !in marker && !InClass('\n', k)
    ensures Group(a + "\n" + b, marker, k) ==
      (if Group(a, marker, k).Some? then Group(a, marker, k) else Group(b, marker, k))
  {
    var t := a + "\n" + b;
    if Find(a, marker, k).Some? {
      GroupBeforeBreak(a, b, marker, k);
    } else {
      NoMatchBeforeBreak(a, b, marker, k);
      assert t[|a| + 1..] == b;
      GroupSuffix(t, |a| + 1, b, marker, k);
    }
  }

  /** The first line is a prefix of the broken text, ended by the break. */
  lemma {:induction false} BreakEndsLine(a: string, b: string, k: CharClass)
    requires !InClass('\n', k)
    ensures |a| < |a + "\n" + b| && (a + "\n" + b)[..|a|] == a
    ensures !InClass((a + "\n" + b)[|a|], k)
  {
    assert (a + "\n" + b)[|a|] == '\n';
  }

  lemma {:induction false} GroupBeforeBreak(a: string, b: string, marker: string, k: CharClass)
    requires '\n' !in marker && !InClass('\n', k)
    requires Find(a, marker, k).Some?
    ensures Group(a + "\n" + b, marker, k) == Group(a, marker, k)
  {
    var i := Find(a, marker, k).value;
    BreakKeepsCapture(a, b, marker, k, i, Group(a, marker, k).value);
  }

  /** The leftmost match and its run, found before a line break, are still
      the leftmost match and its run once more lines follow. */
  lemma {:induction false} BreakKeepsCapture(a: string, b: string, marker: string, k: CharClass, i: nat, v: string)
    requires '\n' !in marker && !InClass('\n', k)
    requires IsLeftmost(a, marker, k, i) && IsMaximalRun(a, i + |marker|, v, k)
    ensures Group(a + "\n" + b, marker, k) == Some(v)
  {
    LeftmostBeforeBreak(a, b, marker, k, i);
    BreakEndsLine(a, b, k);
    RunPrefix(a + "\n" + b, a, i + |marker|, v, k);
    GroupIsCapture(a + "\n" + b, marker, k, i, v);
  }

  /** Searching lines joined with line breaks finds the first line that
      holds a match. */
  function FirstGroup(lines: seq<string>, marker: string, k: CharClass): Option<string>
    decreases |lines|
  {
    if |lines| == 0 then None
    else if Group(lines[0], marker, k).Some? then Group(lines[0], marker, k)
    else FirstGroup(lines[1..], marker, k)
  }

  /** The first group is the one in line `n` when no earlier line matches. */
  lemma {:induction false} FirstGroupAt(lines: seq<string>, marker: string, k: CharClass, n: nat, v: string)
    requires n < |lines|
    requires forall j | 0 <= j < n :: Group(lines[j], marker, k).None?
    requires Group(lines[n], marker, k) == Some(v)
    ensures FirstGroup(lines, marker, k) == Some(v)
    decreases n
  {
    if n > 0 {
      assert Group(lines[0], marker, k).None?;
      FirstGroupAt(lines[1..], marker, k, n - 1, v);
    }
  }

  lemma {:induction false} GroupLines(lines: seq<string>, marker: string, k: CharClass)
    requires '\n' !in marker && !InClass('\n', k)
    ensures Group(Join(lines, '\n'), marker, k) == FirstGroup(lines, marker, k)
    decreases |lines|
  {
    if |lines| == 0 {
      assert NoMatch("", marker, k);
    } else if |lines| == 1 {
      assert FirstGroup(lines[1..], marker, k) == None;
    } else {
      GroupLines(lines[1..], marker, k);
      assert Join(lines, '\n') == lines[0] + "\n" + Join(lines[1..], '\n');
      GroupAcrossLine(lines[0], Join(lines[1..], '\n'), marker, k);
    }
  }

  /** None of the first `n` lines holds a match. */
  predicate NoGroupBefore(lines: seq<string>, marker: string, k: CharClass, n: nat)
    requires n <= |lines|
  {
    n == 0 || (Group(lines[n - 1], marker, k).None? && NoGroupBefore(lines, marker, k, n - 1))
  }

  lemma {:induction false} NoGroupBeforeAll(lines: seq<string>, marker: string, k: CharClass, n: nat)
    requires n <= |lines| && NoGroupBefore(lines, marker, k, n)
    ensures forall j | 0 <= j < n :: Group(lines[j], marker, k).None?
    decreases n
  {
    if n > 0 {
      NoGroupBeforeAll(lines, marker, k, n - 1);
    }
  }

  /** Searching lines joined with line breaks finds the group of line `n`
      when no earlier line matches. */
  lemma {:induction false} JoinedLinesGroup(lines: seq<string>, marker: string, k: CharClass, n: nat, v: string)
    requires '\n' !in marker && !InClass('\n', k)
    requires n < |lines|
    requires NoGroupBefore(lines, marker, k, n)
    requires Group(lines[n], marker, k) == Some(v)
    ensures Group(Join(lines, '\n'), marker, k) == Some(v)
  {
    NoGroupBeforeAll(lines, marker, k, n);
    FirstGroupAt(lines, marker, k, n, v);
    GroupLines(lines, marker, k);
  }
}
