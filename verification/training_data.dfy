/** The synthetic-record generator of `scripts/generate_training_data.py`:
    the simulated Document AI text, the JSON file name and the CSV history
    row built by `generate_record`, and the upload plan and CSV file of
    `upload_and_save`.

    The random draws (`uuid.uuid4()` and `random.randint`) are parameters;
    their ranges are preconditions. */
module TrainingData {
  import opened Outcomes
  import opened Text
  import opened Extraction

  // ---------------------------------------------------------------------
  // Inputs drawn at random
  // ---------------------------------------------------------------------

  /** `str(uuid.uuid4())`: 36 characters, lower-case hexadecimal digits with
      hyphens at 8, 13, 18 and 23, version digit `4`, variant `8`..`b`. */
  predicate IsUuid4Text(u: string) {
    && |u| == 36
    && (forall i | 0 <= i < 36 ::
          if i == 8 || i == 13 || i == 18 || i == 23 then u[i] == '-' else IsLowerHex(u[i]))
    && u[14] == '4'
    && u[19] in "89ab"
  }

  /** The `random.randint` draws of one record. */
  datatype Draw = Draw(
    income: int,
    loanAmount: int,
    creditScore: int,
    existingDebt: int,
    missedPayments: int)

  /** `randint(a, b)` returns a value in [a, b], bounds included. */
  predicate InRanges(d: Draw) {
    && 30000 <= d.income <= 150000
    && 5000 <= d.loanAmount <= 50000
    && 300 <= d.creditScore <= 850
    && 0 <= d.existingDebt <= 50000
    && 0 <= d.missedPayments <= 5
  }

  // ---------------------------------------------------------------------
  // generate_record
  // ---------------------------------------------------------------------

  datatype GeneratedRecord = GeneratedRecord(
    customerId: string,
    fileName: string,
    docaiText: string,
    csvRow: string)

  const Indent: string := "    "
  const ApplicationDate: string := "2025-01-01"

  /** `str(uuid.uuid4())[:8]`: eight lower-case hexadecimal digits. */
  function CustomerId(uuid: string): (id: string)
    requires IsUuid4Text(uuid)
    ensures |id| == 8
    ensures forall c | c in id :: IsLowerHex(c)
  {
    uuid[..8]
  }

  /** The lines of the triple-quoted f-string: it opens with a line break,
      each field sits on its own line indented by four spaces, and the
      closing quotes leave a final indented empty line. */
  function DocaiLines(id: string, income: nat, loanAmount: nat): seq<string> {
    [ "",
      Indent + "Applicant ID: " + id,
      Indent + "Declared Annual Income: $" + ShowNat(income),
      Indent + "Requested Loan Amount: $" + ShowNat(loanAmount),
      Indent + "Application Date: " + ApplicationDate,
      Indent ]
  }

  /** The text the script stores: the lines joined with line breaks. When
      the id holds no line break, splitting the text at line breaks gives
      back exactly those six lines. */
  function DocaiText(id: string, income: nat, loanAmount: nat): (text: string)
    ensures '\n' !in id ==> Split(text, '\n') == DocaiLines(id, income, loanAmount)
  {
    DocaiSplit(id, income, loanAmount);
    Join(DocaiLines(id, income, loanAmount), '\n')
  }

  /** `f"{customer_id},{credit_score},{randint(0,5)},{existing_debt}"`:
      when the id holds no comma, a CSV reader splitting the row on ","
      gets back the id and the three numbers' decimal texts, in order. */
  function CsvRow(id: string, creditScore: nat, missedPayments: nat, existingDebt: nat): (r: string)
    ensures ',' !in id ==>
      Split(r, ',') == [id, ShowNat(creditScore), ShowNat(missedPayments), ShowNat(existingDebt)]
  {
    NoDigitsAbsent(ShowNat(creditScore), ',');
    NoDigitsAbsent(ShowNat(missedPayments), ',');
    NoDigitsAbsent(ShowNat(existingDebt), ',');
    FourFieldsSplit(id, ShowNat(creditScore), ShowNat(missedPayments), ShowNat(existingDebt));
    id + "," + ShowNat(creditScore) + "," + ShowNat(missedPayments) + "," + ShowNat(existingDebt)
  }

  /** The header line, "customer_id,credit_score,missed_payments_last_12m,existing_debt". */
  const CsvHeader: string :=
    "customer_id" + "," + "credit_score" + "," + "missed_payments_last_12m" + "," + "existing_debt"
  const CsvColumns: seq<string> :=
    ["customer_id", "credit_score", "missed_payments_last_12m", "existing_debt"]

  /** One synthetic record: the JSON file is named after the id, and the CSV
      row has the header's four fields in the header's order. */
  function GenerateRecord(uuid: string, d: Draw): (r: GeneratedRecord)
    requires IsUuid4Text(uuid) && InRanges(d)
    ensures r.customerId == uuid[..8]
    ensures r.fileName == r.customerId + ".json"
    ensures Split(r.csvRow, ',') ==
      [r.customerId, ShowNat(d.creditScore), ShowNat(d.missedPayments), ShowNat(d.existingDebt)]
  {
    var id := CustomerId(uuid);
    HexAbsent(id, ',');
    GeneratedRecord(
      id,
      id + ".json",
      DocaiText(id, d.income, d.loanAmount),
      CsvRow(id, d.creditScore, d.missedPayments, d.existingDebt))
  }

  /** A generated row has as many comma-separated fields as the header. */
  lemma RowMatchesHeader(uuid: string, d: Draw)
    requires IsUuid4Text(uuid) && InRanges(d)
    ensures |Split(GenerateRecord(uuid, d).csvRow, ',')| == |Split(CsvHeader, ',')|
  {
    HeaderFields();
  }

  /** The batch extractor reads back from a generated record's text exactly
      the id, income and loan amount it was built from, and the fixed date. */
  lemma {:induction false} GeneratedTextRoundTrip(uuid: string, d: Draw)
    requires IsUuid4Text(uuid) && InRanges(d)
    ensures ExtractFields(GenerateRecord(uuid, d).docaiText) ==
      Ok(ApplicationFields(Some(uuid[..8]), d.income, d.loanAmount, Some(ApplicationDate)))
  {
    var id := CustomerId(uuid);
    assert Pow10(6) == 1000000;
    ShowNatShort(d.income, 6);
    ShowNatShort(d.loanAmount, 6);
    DocaiRoundTrip(id, d.income, d.loanAmount);
  }

  // ---------------------------------------------------------------------
  // upload_and_save
  // ---------------------------------------------------------------------

  /** What upload_and_save writes: one JSON blob per record under
      `batch_results/`, in generation order, then `credit_history.csv`. */
  datatype SavedData = SavedData(jsonBlobs: seq<string>, csvBlob: string, csvContent: string)

  const UploadPrefix: string := "batch_results/"
  const CsvBlobName: string := "credit_history.csv"

  function Records(uuids: seq<string>, draws: seq<Draw>): (rs: seq<GeneratedRecord>)
    requires |uuids| == |draws|
    requires forall i | 0 <= i < |uuids| :: IsUuid4Text(uuids[i])
    requires forall i | 0 <= i < |draws| :: InRanges(draws[i])
    ensures |rs| == |draws|
    ensures forall i | 0 <= i < |rs| :: rs[i] == GenerateRecord(uuids[i], draws[i])
  {
    seq(|draws|, i requires 0 <= i < |draws| => GenerateRecord(uuids[i], draws[i]))
  }

  /** `f"batch_results/{fname}"` for each record, in generation order. */
  function JsonBlobs(uuids: seq<string>, draws: seq<Draw>): (names: seq<string>)
    requires |uuids| == |draws|
    requires forall i | 0 <= i < |uuids| :: IsUuid4Text(uuids[i])
    requires forall i | 0 <= i < |draws| :: InRanges(draws[i])
    ensures |names| == |draws|
    ensures forall i | 0 <= i < |draws| :: names[i] == UploadPrefix + CustomerId(uuids[i]) + ".json"
  {
    var rs := Records(uuids, draws);
    seq(|rs|, i requires 0 <= i < |rs| => UploadPrefix + rs[i].fileName)
  }

  /** The lines of the CSV file: the header, then one row per record. */
  function CsvLines(uuids: seq<string>, draws: seq<Draw>): (lines: seq<string>)
    requires |uuids| == |draws|
    requires forall i | 0 <= i < |uuids| :: IsUuid4Text(uuids[i])
    requires forall i | 0 <= i < |draws| :: InRanges(draws[i])
    ensures forall i | 0 <= i < |lines| :: '\n' !in lines[i]
  {
    var rs := Records(uuids, draws);
    HeaderHasNoBreak();
    RowsHaveNoBreak(uuids, draws);
    [CsvHeader] + seq(|rs|, i requires 0 <= i < |rs| => rs[i].csvRow)
  }

  function UploadAndSave(uuids: seq<string>, draws: seq<Draw>): (s: SavedData)
    requires |uuids| == |draws|
    requires forall i | 0 <= i < |uuids| :: IsUuid4Text(uuids[i])
    requires forall i | 0 <= i < |draws| :: InRanges(draws[i])
    ensures |s.jsonBlobs| == |draws|
    ensures forall i | 0 <= i < |draws| ::
      s.jsonBlobs[i] == UploadPrefix + CustomerId(uuids[i]) + ".json"
    ensures s.csvBlob == CsvBlobName
    ensures Split(s.csvContent, '\n') ==
      [CsvHeader] + seq(|draws|, i requires 0 <= i < |draws| => Records(uuids, draws)[i].csvRow)
  {
    var lines := CsvLines(uuids, draws);
    SplitJoin(lines, '\n');
    SavedData(JsonBlobs(uuids, draws), CsvBlobName, Join(lines, '\n'))
  }

  // ---------------------------------------------------------------------
  // Lemmas
  // ---------------------------------------------------------------------

  /** A label whose first character does not occur in `a` cannot match
      anywhere inside `a`. */
  lemma {:induction false} GroupAfterBlank(a: string, b: string, marker: string, k: CharClass)
    requires |marker| > 0 && marker[0] !in a
    ensures Group(a + b, marker, k) == Group(b, marker, k)
  {
    forall i: nat | i < |a| ensures !MatchesAt(a + b, marker, k, i) {
      if i + |marker| < |a + b| {
        assert (a + b)[i..i + |marker|][0] == a[i];
      }
    }
    GroupSkip(a, b, marker, k);
  }

  lemma {:induction false} NoDigitsAbsent(s: string, c: char)
    requires AllDigits(s) && !IsDigit(c)
    ensures c !in s
  {
  }

  lemma {:induction false} HexAbsent(s: string, c: char)
    requires forall x | x in s :: IsLowerHex(x)
    requires !IsLowerHex(c)
    ensures c !in s
  {
  }

  lemma {:induction false} EmptyLineMisses(marker: string, k: CharClass)
    ensures Group("", marker, k) == None
  {
    assert NoMatch("", marker, k);
  }

  /** An indented line `label + v` yields `v` when `v` is a maximal run. */
  lemma {:induction false} LabelLine(marker: string, v: string, k: CharClass)
    requires |marker| > 0 && marker[0] != ' '
    requires |v| > 0 && forall c | c in v :: InClass(c, k)
    ensures Group(Indent + marker + v, marker, k) == Some(v)
  {
    assert Indent + marker + v == Indent + (marker + v + "");
    GroupAfterBlank(Indent, marker + v + "", marker, k);
    GroupAtStart(marker, v, "", k);
  }

  lemma {:induction false} DigitsInClass(digits: string)
    requires AllDigits(digits)
    ensures forall c | c in digits :: InClass(c, Digits)
  {
  }

  lemma {:induction false} IdLineNoIncome(id: string)
    requires |id| == 8
    ensures Group(Indent + "Applicant ID: " + id, IncomeLabel, Digits) == None
  {
    assert Indent + "Applicant ID: " + id == "    Applicant I" + ("D: " + id);
    GroupAfterBlank("    Applicant I", "D: " + id, IncomeLabel, Digits);
    assert NoMatch("D: " + id, IncomeLabel, Digits);
  }

  lemma DropFirst(a: string, b: string)
    requires |a| > 0
    ensures (a + b)[1..] == a[1..] + b
  {
  }

  /** The text `blank + start + rest` holds no date match when `blank` and
      `rest` lack an 'A' and the label does not match at the start of
      `start`, whose only 'A' is its first character. */
  lemma {:induction false} DateMissesLine(blank: string, start: string, rest: string)
    requires 'A' !in blank && |start| > 0
    requires !MatchesAt(start + rest, DateLabel, DateChars, 0)
    requires 'A' !in start[1..] && 'A' !in rest
    ensures Group(blank + start + rest, DateLabel, DateChars) == None
  {
    assert blank + start + rest == blank + (start + rest);
    GroupAfterBlank(blank, start + rest, DateLabel, DateChars);
    GroupSkipOne(start + rest, DateLabel, DateChars);
    DropFirst(start, rest);
    GroupAbsent(start[1..] + rest, DateLabel, DateChars);
  }

  lemma {:induction false} IdLineNoDate(id: string)
    requires forall c | c in id :: IsLowerHex(c)
    ensures Group(Indent + "Applicant ID: " + id, DateLabel, DateChars) == None
  {
    HexAbsent(id, 'A');
    var t := "Applicant ID: " + id;
    assert !MatchesAt(t, DateLabel, DateChars, 0) by {
      if |DateLabel| < |t| {
        assert t[..|DateLabel|][7] != DateLabel[7];
      }
    }
    DateMissesLine(Indent, "Applicant ID: ", id);
  }

  lemma IncomeLinePrefix()
    ensures Indent + "Declared Annual Income: $" == "    Declared " + "Annual Income: $"
  {
  }

  lemma LoanLinePrefix()
    ensures Indent + "Requested Loan Amount: $" == "    Requested Loan " + "Amount: $"
  {
  }

  lemma {:induction false} IncomeLineNoDate(digits: string)
    requires AllDigits(digits)
    ensures Group(Indent + "Declared Annual Income: $" + digits, DateLabel, DateChars) == None
  {
    NoDigitsAbsent(digits, 'A');
    var t := "Annual Income: $" + digits;
    assert !MatchesAt(t, DateLabel, DateChars, 0) by {
      if |DateLabel| < |t| {
        assert t[..|DateLabel|][1] != DateLabel[1];
      }
    }
    IncomeLinePrefix();
    DateMissesLine("    Declared ", "Annual Income: $", digits);
  }

  lemma {:induction false} LoanLineNoDate(digits: string)
    requires AllDigits(digits)
    ensures Group(Indent + "Requested Loan Amount: $" + digits, DateLabel, DateChars) == None
  {
    NoDigitsAbsent(digits, 'A');
    var t := "Amount: $" + digits;
    assert !MatchesAt(t, DateLabel, DateChars, 0) by {
      if |DateLabel| < |t| {
        assert t[..|DateLabel|][1] != DateLabel[1];
      }
    }
    LoanLinePrefix();
    DateMissesLine("    Requested Loan ", "Amount: $", digits);
  }

  // One lemma per line of the simulated text: which patterns it matches.

  lemma {:induction false} BlankLine(id: string, income: nat, loanAmount: nat, marker: string, k: CharClass)
    ensures Group(DocaiLines(id, income, loanAmount)[0], marker, k).None?
  {
    EmptyLineMisses(marker, k);
  }

  lemma {:induction false} IdLine(id: string, income: nat, loanAmount: nat)
    requires |id| == 8 && forall c | c in id :: IsLowerHex(c)
    ensures Group(DocaiLines(id, income, loanAmount)[1], IdLabel, IdChars) == Some(id)
  {
    LabelLine(IdLabel, id, IdChars);
  }

  lemma {:induction false} IdLineMissesAmounts(id: string, income: nat, loanAmount: nat)
    requires |id| == 8 && forall c | c in id :: IsLowerHex(c)
    ensures Group(DocaiLines(id, income, loanAmount)[1], IncomeLabel, Digits).None?
    ensures Group(DocaiLines(id, income, loanAmount)[1], LoanLabel, Digits).None?
  {
    IdLineNoIncome(id);
    HexAbsent(id, 'R');
    GroupAbsent(DocaiLines(id, income, loanAmount)[1], LoanLabel, Digits);
  }

  lemma {:induction false} IdLineMissesDate(id: string, income: nat, loanAmount: nat)
    requires |id| == 8 && forall c | c in id :: IsLowerHex(c)
    ensures Group(DocaiLines(id, income, loanAmount)[1], DateLabel, DateChars).None?
  {
    IdLineNoDate(id);
  }

  lemma {:induction false} IncomeLine(id: string, income: nat, loanAmount: nat)
    ensures Group(DocaiLines(id, income, loanAmount)[2], IncomeLabel, Digits) == Some(ShowNat(income))
  {
    DigitsInClass(ShowNat(income));
    LabelLine(IncomeLabel, ShowNat(income), Digits);
  }

  lemma {:induction false} IncomeLineMissesLoan(id: string, income: nat, loanAmount: nat)
    ensures Group(DocaiLines(id, income, loanAmount)[2], LoanLabel, Digits).None?
  {
    NoDigitsAbsent(ShowNat(income), 'R');
    GroupAbsent(DocaiLines(id, income, loanAmount)[2], LoanLabel, Digits);
  }

  lemma {:induction false} IncomeLineMissesDate(id: string, income: nat, loanAmount: nat)
    ensures Group(DocaiLines(id, income, loanAmount)[2], DateLabel, DateChars).None?
  {
    IncomeLineNoDate(ShowNat(income));
  }

  lemma {:induction false} LoanLine(id: string, income: nat, loanAmount: nat)
    ensures Group(DocaiLines(id, income, loanAmount)[3], LoanLabel, Digits) == Some(ShowNat(loanAmount))
  {
    DigitsInClass(ShowNat(loanAmount));
    LabelLine(LoanLabel, ShowNat(loanAmount), Digits);
  }

  lemma {:induction false} LoanLineMissesDate(id: string, income: nat, loanAmount: nat)
    ensures Group(DocaiLines(id, income, loanAmount)[3], DateLabel, DateChars).None?
  {
    LoanLineNoDate(ShowNat(loanAmount));
  }

  lemma {:induction false} DateLine(id: string, income: nat, loanAmount: nat)
    ensures Group(DocaiLines(id, income, loanAmount)[4], DateLabel, DateChars) == Some(ApplicationDate)
  {
    LabelLine(DateLabel, ApplicationDate, DateChars);
  }

  // Each field is found on its own line, every earlier line missing it.

  lemma {:induction false} IdRoundTrip(id: string, income: nat, loanAmount: nat)
    requires |id| == 8 && forall c | c in id :: IsLowerHex(c)
    ensures Group(DocaiText(id, income, loanAmount), IdLabel, IdChars) == Some(id)
  {
    var lines := DocaiLines(id, income, loanAmount);
    SingleLineLabels();
    BlankLine(id, income, loanAmount, IdLabel, IdChars);
    assert NoGroupBefore(lines, IdLabel, IdChars, 1);
    IdLine(id, income, loanAmount);
    JoinedLinesGroup(lines, IdLabel, IdChars, 1, id);
  }

  lemma {:induction false} IncomeRoundTrip(id: string, income: nat, loanAmount: nat)
    requires |id| == 8 && forall c | c in id :: IsLowerHex(c)
    ensures Group(DocaiText(id, income, loanAmount), IncomeLabel, Digits) == Some(ShowNat(income))
  {
    var lines := DocaiLines(id, income, loanAmount);
    SingleLineLabels();
    BlankLine(id, income, loanAmount, IncomeLabel, Digits);
    assert NoGroupBefore(lines, IncomeLabel, Digits, 1);
    IdLineMissesAmounts(id, income, loanAmount);
    assert NoGroupBefore(lines, IncomeLabel, Digits, 2);
    IncomeLine(id, income, loanAmount);
    JoinedLinesGroup(lines, IncomeLabel, Digits, 2, ShowNat(income));
  }

  lemma {:induction false} LoanRoundTrip(id: string, income: nat, loanAmount: nat)
    requires |id| == 8 && forall c | c in id :: IsLowerHex(c)
    ensures Group(DocaiText(id, income, loanAmount), LoanLabel, Digits) == Some(ShowNat(loanAmount))
  {
    var lines := DocaiLines(id, income, loanAmount);
    SingleLineLabels();
    BlankLine(id, income, loanAmount, LoanLabel, Digits);
    assert NoGroupBefore(lines, LoanLabel, Digits, 1);
    IdLineMissesAmounts(id, income, loanAmount);
    assert NoGroupBefore(lines, LoanLabel, Digits, 2);
    IncomeLineMissesLoan(id, income, loanAmount);
    assert NoGroupBefore(lines, LoanLabel, Digits, 3);
    LoanLine(id, income, loanAmount);
    JoinedLinesGroup(lines, LoanLabel, Digits, 3, ShowNat(loanAmount));
  }

  lemma {:induction false} DateRoundTrip(id: string, income: nat, loanAmount: nat)
    requires |id| == 8 && forall c | c in id :: IsLowerHex(c)
    ensures Group(DocaiText(id, income, loanAmount), DateLabel, DateChars) == Some(ApplicationDate)
  {
    var lines := DocaiLines(id, income, loanAmount);
    SingleLineLabels();
    BlankLine(id, income, loanAmount, DateLabel, DateChars);
    assert NoGroupBefore(lines, DateLabel, DateChars, 1);
    IdLineMissesDate(id, income, loanAmount);
    assert NoGroupBefore(lines, DateLabel, DateChars, 2);
    IncomeLineMissesDate(id, income, loanAmount);
    assert NoGroupBefore(lines, DateLabel, DateChars, 3);
    LoanLineMissesDate(id, income, loanAmount);
    assert NoGroupBefore(lines, DateLabel, DateChars, 4);
    DateLine(id, income, loanAmount);
    JoinedLinesGroup(lines, DateLabel, DateChars, 4, ApplicationDate);
  }

  /** The extractor reads back from the simulated text exactly the id, the
      amounts and the fixed date that were written into it. */
  lemma {:induction false} DocaiRoundTrip(id: string, income: nat, loanAmount: nat)
    requires |id| == 8 && forall c | c in id :: IsLowerHex(c)
    requires |ShowNat(income)| <= MaxStrDigits && |ShowNat(loanAmount)| <= MaxStrDigits
    ensures ExtractFields(DocaiText(id, income, loanAmount)) ==
      Ok(ApplicationFields(Some(id), income, loanAmount, Some(ApplicationDate)))
  {
    var text := DocaiText(id, income, loanAmount);
    IdRoundTrip(id, income, loanAmount);
    IncomeRoundTrip(id, income, loanAmount);
    PrintedAmount(text, IncomeLabel, income);
    LoanRoundTrip(id, income, loanAmount);
    PrintedAmount(text, LoanLabel, loanAmount);
    DateRoundTrip(id, income, loanAmount);
    FieldsFromParts(text, id, income, loanAmount, ApplicationDate);
  }

  /** Four comma-free fields written with "," between them split back into
      the same four fields. */
  lemma {:induction false} FourFieldsSplit(a: string, b: string, c: string, d: string)
    ensures ',' !in a && ',' !in b && ',' !in c && ',' !in d ==>
      Split(a + "," + b + "," + c + "," + d, ',') == [a, b, c, d]
  {
    if ',' !in a && ',' !in b && ',' !in c && ',' !in d {
      var fields := [a, b, c, d];
      assert Join(fields[3..], ',') == d;
      assert Join(fields[2..], ',') == c + "," + d;
      assert Join(fields[1..], ',') == b + "," + c + "," + d;
      assert Join(fields, ',') == a + "," + b + "," + c + "," + d;
      SplitJoin(fields, ',');
    }
  }

  lemma {:induction false} HeaderFields()
    ensures Split(CsvHeader, ',') == CsvColumns
  {
    FourFieldsSplit("customer_id", "credit_score", "missed_payments_last_12m", "existing_debt");
  }

  lemma {:induction false} DocaiSplit(id: string, income: nat, loanAmount: nat)
    ensures '\n' !in id ==>
      Split(Join(DocaiLines(id, income, loanAmount), '\n'), '\n') == DocaiLines(id, income, loanAmount)
  {
    if '\n' !in id {
      var lines := DocaiLines(id, income, loanAmount);
      NoDigitsAbsent(ShowNat(income), '\n');
      NoDigitsAbsent(ShowNat(loanAmount), '\n');
      LiteralsHaveNoBreak();
      assert forall i | 0 <= i < |lines| :: '\n' !in lines[i];
      SplitJoin(lines, '\n');
    }
  }

  lemma LiteralsHaveNoBreak()
    ensures '\n' !in Indent + "Applicant ID: "
    ensures '\n' !in Indent + "Declared Annual Income: $"
    ensures '\n' !in Indent + "Requested Loan Amount: $"
    ensures '\n' !in Indent + "Application Date: " + ApplicationDate
  {
    NoBreakIn(Indent + "Applicant ID: ");
    NoBreakIn(Indent + "Declared Annual Income: $");
    NoBreakIn(Indent + "Requested Loan Amount: $");
    NoBreakIn(Indent + "Application Date: " + ApplicationDate);
  }

  /** Printable text holds no line break. */
  lemma NoBreakIn(s: string)
    requires forall i | 0 <= i < |s| :: ' ' <= s[i] <= '~'
    ensures '\n' !in s
  {
  }

  lemma RowsHaveNoBreak(uuids: seq<string>, draws: seq<Draw>)
    requires |uuids| == |draws|
    requires forall i | 0 <= i < |uuids| :: IsUuid4Text(uuids[i])
    requires forall i | 0 <= i < |draws| :: InRanges(draws[i])
    ensures forall i | 0 <= i < |draws| :: '\n' !in Records(uuids, draws)[i].csvRow
  {
    forall i | 0 <= i < |draws| ensures '\n' !in Records(uuids, draws)[i].csvRow {
      CsvRowHasNoBreak(uuids[i], draws[i]);
    }
  }

  lemma HeaderHasNoBreak()
    ensures '\n' !in CsvHeader
  {
  }

  lemma {:induction false} CsvRowHasNoBreak(uuid: string, d: Draw)
    requires IsUuid4Text(uuid) && InRanges(d)
    ensures '\n' !in GenerateRecord(uuid, d).csvRow
  {
    var row := GenerateRecord(uuid, d).csvRow;
    var parts := Split(row, ',');
    HexAbsent(CustomerId(uuid), '\n');
    NoDigitsAbsent(ShowNat(d.creditScore), '\n');
    NoDigitsAbsent(ShowNat(d.missedPayments), '\n');
    NoDigitsAbsent(ShowNat(d.existingDebt), '\n');
    JoinSplit(row, ',');
    JoinAvoids(parts, ',', '\n');
  }
}
