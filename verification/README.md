# Credit-risk demo: the pure core, modelled in Dafny

The repository is a small loan-risk demo on Google Cloud. A synthetic-data
script writes fake Document AI outputs and a CSV credit history. Two
ingestion scripts (a plain loop and a Beam pipeline) pull four fields out
of Document AI text with regular expressions. A Flask service looks a
customer up, scores the application with a BigQuery ML model and renders a
verdict. This project models the pieces of that code that are plain logic:

- `Text` (`text.dfy`): ASCII character classes; `f"{n}"` and `int(digits)`
  with their round trip; `str.split` / `str.join` on one character with
  both round trips; `str.strip` over ASCII whitespace.
- `Extraction` (`extraction.dfy`): the four `re.search` patterns
  `Label: ([class]+)`. There is a reference semantics (leftmost match
  position, maximal greedy run) and an executable search, `Find` / `Group`,
  proved equal to it. `ExtractFields` applies the four patterns and their
  defaults (`None` for id and date, `0` for income and loan). It raises, as
  `int()` does, when a captured amount has more than 4300 digits.
- `DocaiBatch` (`docai_batch.dfy`): `process_pdf` and the ingestion loop
  of `docai.py`. The loop skips folder entries, drops `None` rows, flushes
  at 50 and makes a final insert of the remainder. The loop is a method
  whose insert calls are proved to be the unique cut of the kept rows into
  pieces of 50. A download or Document AI exception ends the run: the
  model says which blobs were processed by then, which inserts were made,
  and which buffered rows are lost.
- `BatchPipeline` (`batch_pipeline.dfy`): `ProcessPdfFn.process`. It splits
  the `gs://` path and runs the same extractor. It yields at most one
  record and yields nothing when anything raises, including `int()`.
- `LoanApi` (`loan_api.dfy`): `process_loan`, `get_random_customer`, and
  the page script's mapping from prediction to verdict box.
- `TrainingData` (`training_data.dfy`): `generate_record` and
  `upload_and_save`. The main theorem is that the extractor recovers the
  generated id, income, loan amount and date from the generated text.

Foreign services are function parameters:

- the profile query: `lookup: string -> Result<seq<Profile>>`;
- the prediction query: `score: Features<A> -> Result<seq<Prediction>>`;
- download plus Document AI: `ocr: (bucket, blob) -> Result<string>`;
- per-blob processing in the loop: `process: string -> Result<Option<R>>`.
  `Raised` is the exception from the download or Document AI, `Ok(None)`
  is process_pdf's `except` branch, and `Ok(Some(row))` is a row.

Random draws are parameters with range preconditions. A Python exception
is the `Raised(message)` case of `Outcomes.Result`. `None` is
`Outcomes.Option.None`.

## Model

| member | source | states |
|---|---|---|
| Text.ShowNat | scripts/generate_training_data.py:26-27 | `f"{n}"` is a non-empty run of decimal digits, with a leading zero only for 0. |
| Text.DecimalValue | legacy_experiments/docai.py:51 | The value `int()` reads from `k` digits is below 10^k. |
| Text.ShowNatShort | scripts/generate_training_data.py:14-15 | A number below 10^k prints with at most `k` digits, so the generator's six-digit amounts stay far inside the 4300-digit limit. |
| Text.DecimalRoundTrip | legacy_experiments/docai.py:50-51 | `int()` of the decimal text `f"{n}"` writes is `n` again, for every natural `n`. |
| Text.Split | legacy_experiments/batch_pipeline.py:26 | `path.split("/")` yields one more piece than there are separators, and no piece contains the separator. |
| Text.Join | scripts/generate_training_data.py:66 | `"\n".join(lines)` is as long as the lines plus one separator between each two of them, and it starts with the first line. |
| Text.JoinSplit | legacy_experiments/batch_pipeline.py:26-28 | Rejoining the pieces of a split with the same separator gives back the original string. |
| Text.SplitJoin | scripts/generate_training_data.py:66 | Splitting a join of pieces that do not contain the separator gives back those pieces. |
| Text.Strip | frontend/app.py:193 | `strip()` returns a contiguous slice of its input. Only whitespace lies outside the slice, and the slice neither starts nor ends with whitespace. |
| Text.StripIdempotent | frontend/app.py:193 | Trimming an already trimmed id changes nothing. |
| Text.StripPadded | frontend/app.py:193 | Whitespace added on either side of a string never changes its trimmed form. |
| Extraction.Find | legacy_experiments/docai.py:46 | The search returns None exactly when no position holds the label followed by a class character. Otherwise it returns the leftmost such position. |
| Extraction.Group | legacy_experiments/docai.py:46-47 | `group(1)` is None exactly when there is no match. Otherwise it is the maximal non-empty run of class characters right after the label at the leftmost match. |
| Extraction.LeftmostCaptureUnique | legacy_experiments/docai.py:46-59 | The leftmost-match, maximal-run description determines the captured text uniquely. |
| Extraction.GroupIsCapture | legacy_experiments/docai.py:46-59 | Any maximal run after the leftmost match is what the search captures. |
| Extraction.Amount | legacy_experiments/docai.py:50-55 | `int()` raises exactly when the captured digit run is longer than 4300 digits. Otherwise the amount is 0 when there is no digit match, and the decimal value of the captured run when there is one. |
| Extraction.ExtractFields | legacy_experiments/docai.py:44-66 | The extraction raises exactly when the income or the loan capture exceeds 4300 digits. Otherwise each of the four fields is set independently. Id and date are None exactly when their pattern has no match, and otherwise the leftmost maximal capture. Income and loan are 0 without a match, and otherwise the value of their captured digits. |
| Extraction.LongIncomeRaises | legacy_experiments/docai.py:50-51 | A text whose income label is followed by more than 4300 digits makes the extraction raise. |
| Extraction.PrintedAmount | legacy_experiments/docai.py:50-55 | A label followed by the printed form of `n`, at most 4300 digits long, reads back as `n`. |
| Extraction.GroupLines | legacy_experiments/docai.py:46-59 | On newline-separated text, a pattern that cannot span a newline captures what it captures in the first line where it matches. |
| Extraction.JoinedLinesGroup | legacy_experiments/docai.py:46-59 | When none of the first `n` lines matches and line `n` captures `v`, the search over the lines joined with line breaks captures `v`. |
| DocaiBatch.ProcessPdf | legacy_experiments/docai.py:22-70 | A download or Document AI exception propagates. Otherwise the result is None exactly when the income or loan capture is too long for `int()`, and otherwise the extracted fields. |
| DocaiBatch.NonFolders | legacy_experiments/docai.py:82-87 | The processed names are exactly the listed names that do not end in "/", each as often as it is listed. |
| DocaiBatch.NonFoldersAppend | legacy_experiments/docai.py:82-87 | The non-folder names of two listings in sequence are those of the first followed by those of the second, so listing order is kept. |
| DocaiBatch.FirstFailure | legacy_experiments/docai.py:29-36 | The index of the first non-folder blob whose download or Document AI call raises: every earlier blob is a folder or processed without an exception. |
| DocaiBatch.Kept | legacy_experiments/docai.py:79-91 | `rows_to_insert` over a listing holds at most one row per listed name. |
| DocaiBatch.KeptProvenance | legacy_experiments/docai.py:89-91 | Every kept row is the row some listed non-folder blob produced. |
| DocaiBatch.Chunk | legacy_experiments/docai.py:93-105 | The reference cut splits the rows into consecutive non-empty pieces of at most 50 rows that concatenate to the rows. All pieces but the last hold exactly 50. |
| DocaiBatch.FlattenAppend | legacy_experiments/docai.py:91-95 | Appending a batch to the flushed batches appends its rows to their concatenation. |
| DocaiBatch.BatchingIsChunk | legacy_experiments/docai.py:94-105 | Any cut with the shape above is the reference cut, so the shape fixes the insert calls. |
| DocaiBatch.Buffer | legacy_experiments/docai.py:89-100 | One iteration's buffering appends the row, if any, and flushes exactly 50 rows when the buffer fills. The flushed rows plus the buffer grow by exactly that row. |
| DocaiBatch.IngestBlobs | legacy_experiments/docai.py:29-105 | The run fails exactly when some non-folder blob's download or Document AI call raises, and then reports the first such blob's message. Without a failure, the loop processes exactly the non-folder names and the inserts are the reference cut of all kept rows. With a failure, the names processed are the non-folder names up to and including the failing blob. Every insert made holds exactly 50 rows. Fewer than 50 buffered rows are lost, and the inserts plus the lost rows are the reference cut of the rows kept before the failure. |
| DocaiBatch.KeptIgnoresFolders | legacy_experiments/docai.py:84-85 | The kept rows do not depend on what processing would return for folder entries. |
| DocaiBatch.KeptIsSomesOfProcessed | legacy_experiments/docai.py:89-91 | The kept rows are the results of processing each non-folder blob, in order, with the Nones dropped. |
| BatchPipeline.SplitGcsPath | legacy_experiments/batch_pipeline.py:26-28 | The split raises exactly when the path has fewer than two "/". Otherwise the bucket contains no "/". |
| BatchPipeline.GcsPathRoundTrip | legacy_experiments/batch_pipeline.py:26-28 | For `"gs://" + b + "/" + n` with no "/" in `b`, the bucket is `b` and the blob is `n`, so `"gs://" + bucket + "/" + blob` is the path. |
| BatchPipeline.ProcessPath | legacy_experiments/batch_pipeline.py:24-53 | At most one record is yielded. A record is yielded exactly when the path split, the fetch and both `int()` calls succeed. It carries the blob name as `file_name` and the fields extracted from the fetched text. |
| BatchPipeline.ShortPathYieldsNothing | legacy_experiments/batch_pipeline.py:26-53 | A path with fewer than two "/" yields nothing, whatever the fetch would return. |
| BatchPipeline.ProcessGcsPath | legacy_experiments/batch_pipeline.py:26-50 | A well-formed `gs://` path whose fetch succeeds yields exactly one record, for that blob and its text, unless an amount is too long for `int()`, in which case it yields nothing. |
| BatchPipeline.SameFieldsAsDocai | legacy_experiments/batch_pipeline.py:39-48 | Once the text is fetched, the pipeline yields a record exactly when docai.py's `process_pdf` returns a row for the same text, and the record carries that row's fields. |
| LoanApi.IdText | frontend/app.py:193 | `str()` of the id: an absent id is "", a string is itself, a number prints as decimal digits with no leading zero that read back as the number, and null and the booleans print as "None", "True" and "False". |
| LoanApi.LookupKey | frontend/app.py:193 | The key is the id's string form without its surrounding whitespace. It neither starts nor ends with whitespace. |
| LoanApi.LookupKeyTrimmed | frontend/app.py:193 | Trimming the key again is a no-op, and a missing id gives the empty key. |
| LoanApi.FeaturesOf | frontend/app.py:218-227 | Each named column of the scored record is the profile column of the same name, and `loan_amount` is the request's value. |
| LoanApi.FeaturesRoundTrip | frontend/app.py:218-227 | The profile and the loan amount can be read back from the scored record, so distinct (profile, loan) pairs are never scored as the same record. |
| LoanApi.EchoOf | frontend/app.py:245-250 | The reply's `profile` holds the row's income, credit score, DTI ratio and months employed, each under its own name. |
| LoanApi.Confidence | frontend/app.py:236-242 | The confidence is 0.0 when no entry has the predicted label. Otherwise it is the probability of the last entry with that label, never of an entry with another label. |
| LoanApi.SelectConfidence | frontend/app.py:237-242 | The front-to-back overwriting loop computes the last-match confidence. |
| LoanApi.ProcessLoan | frontend/app.py:189-257 | A lookup error gives 500 with its message. No rows gives exactly the 404 reply naming the trimmed key. With rows, a scorer error gives 500 with its message, an empty scorer result gives 500 "list index out of range", and a scorer row gives a decision. A decision echoes the first row's income, credit score, DTI and months employed, and reports the first result's label with its last-match confidence. |
| LoanApi.DecisionIffRows | frontend/app.py:206-253 | The reply is a decision exactly when the lookup returns a row and the scorer returns a row. |
| LoanApi.NotFoundSkipsScorer | frontend/app.py:208-210 | With no profile rows, the reply is the 404 one, whatever the scorer would do. |
| LoanApi.FirstRowOnly | frontend/app.py:212 | Two lookups that agree on the first row give the same reply. |
| LoanApi.ScorerSeesOnlyFirstRow | frontend/app.py:212-233 | Two scorers that agree on the first row's features with the requested loan give the same reply. |
| LoanApi.PaddedIdSameReply | frontend/app.py:193 | Whitespace pasted around a string id does not change the reply. |
| LoanApi.RandomCustomer | frontend/app.py:174-186 | A query error gives 500 with its message. No rows gives 404 "No data found in table". Otherwise the returned id is one of the fetched rows. |
| LoanApi.EveryRowReachable | frontend/app.py:183 | Every fetched id is returned for some index in `[0, len(rows) - 1]`. |
| LoanApi.RenderDecision | frontend/app.py:146-152 | The box is the rejected one exactly when the prediction is 1, and the approved one otherwise. |
| LoanApi.RenderedVerdict | frontend/app.py:146-152 | A decision reply renders as rejected exactly when the scorer's first row predicts label 1. |
| TrainingData.CustomerId | scripts/generate_training_data.py:11 | The id is eight lower-case hexadecimal characters, so it lies inside the extractor's id class. |
| TrainingData.GenerateRecord | scripts/generate_training_data.py:9-41 | The id is the UUID's first eight characters and the file name is id + ".json". The CSV row splits into exactly id, credit score, missed payments and existing debt. |
| TrainingData.RowMatchesHeader | scripts/generate_training_data.py:49-60 | A generated CSV row has as many comma-separated fields as the header. |
| TrainingData.DocaiText | scripts/generate_training_data.py:24-29 | Split at line breaks, the generated text is exactly the opening empty line, the four indented field lines and the final indented line, provided the id has no line break. |
| TrainingData.DocaiRoundTrip | scripts/generate_training_data.py:24-29 | Extracting from the generated text of any id in the id class, with amounts of at most 4300 digits, recovers the id, both amounts and "2025-01-01". |
| TrainingData.GeneratedTextRoundTrip | scripts/generate_training_data.py:24-29 | Extracting from the generated text recovers the id, the income, the loan amount and "2025-01-01". |
| TrainingData.HeaderFields | scripts/generate_training_data.py:49 | The header splits into its four column names. |
| TrainingData.CsvRow | scripts/generate_training_data.py:40 | A row whose id has no comma splits on "," into the id and the three numbers' decimal texts, in that order. |
| TrainingData.UploadAndSave | scripts/generate_training_data.py:43-68 | One JSON blob per record under "batch_results/", named id + ".json", in generation order. The CSV goes to "credit_history.csv". Its lines, split on "\n", are the header followed by the rows in generation order, with no trailing newline. |

## Left out

- Flask routing, JSON (de)serialisation, the HTML page and its fetch code
  are framework and UI glue. Only the prediction-to-verdict box is modelled.
- BigQuery: the SQL text, `client.query` and `insert_rows_json` are left
  out. The profile and prediction queries are function parameters. The
  inserts are the returned batches. Nothing is claimed about the
  interpolated query text, whose meaning depends on an external SQL engine.
- Document AI and GCS I/O (listing, download, upload) are foreign
  services. Downloading plus Document AI is one parameter. The uploads are
  the blob names and CSV content `UploadAndSave` returns.
- `run()` of the Beam pipeline (argument parsing, options,
  WriteToBigQuery) is framework wiring and is left out.
- `legacy_experiments/trigger_batch.py` only fires a cloud request, and is
  not part of this model.
- `legacy_experiments/generate_data.py` renders PDFs whose text reaches
  the extractor only through OCR. It is not part of this model.
- `legacy_experiments/setup.py` is packaging metadata and is not part of
  this model.
- Randomness: the UUID and the `randint` draws are parameters. Their
  ranges are preconditions, and the random index is any index in range.
  `NUM_RECORDS = 5000` is not fixed: `UploadAndSave` takes any number of
  records.
- Floats: the JSON `confidence` field and its rounding
  (`scripts/generate_training_data.py:31-34`), `json.dumps`, and the page's
  percentage formatting are left out. Probabilities are opaque reals that
  are only selected.
- Unicode: `\d` and `str.strip` are restricted to ASCII digits and ASCII
  whitespace. Non-ASCII digits and spaces are not modelled.
- Extraction.Amount: `int()` raises on a digit string longer than 4300
  digits. 4300 is CPython's default limit since 3.11 and since the 3.7.14,
  3.8.14, 3.9.14 and 3.10.7 security releases. Older interpreters never
  raise there. A limit changed with `sys.set_int_max_str_digits` is not
  modelled either.
- BatchPipeline.ProcessPath: follows the same 4300-digit limit as
  Extraction.Amount. Under an interpreter without the limit, the record
  would be yielded.
- DocaiBatch.IngestBlobs: the errors `insert_rows_json` returns are only
  printed, so they are left out. An exception raised by `insert_rows_json`
  itself is not modelled either: every insert is taken to succeed.
- LoanApi.IdText: only absent, null, string, non-negative integer and
  boolean `customer_id` values are modelled. Negative numbers, floats,
  arrays and objects are not. A body that is not a JSON object is not
  modelled either.
- LoanApi.ProcessLoan: the `loan_amount` value is passed to the scorer
  as-is and never validated, as in the code.
- LoanApi.ProcessLoan: predicted labels are modelled as integers, so
  `int(row.predicted_label)` is the identity. A label that `int()` would
  truncate or reject is not modelled.
- Progress and error logging (`print`, `logger`) is left out.
- BatchPipeline.SplitGcsPath: `parts[2]` raises only for paths with fewer
  than two "/". A path with exactly two, such as `gs://bucket`, passes the
  split with an empty blob name, and only the download can fail on it.
