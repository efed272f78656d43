/** `ProcessPdfFn.process` of `legacy_experiments/batch_pipeline.py`: split a
    `gs://bucket/blob` path, fetch and OCR the blob, extract the four fields
    and yield one record carrying the blob name.

    Download and Document AI are one foreign call, `ocr(bucket, blob)`,
    which either returns the document text or raises. Any exception inside
    `process` is logged and nothing is yielded. */
module BatchPipeline {
  import opened Outcomes
  import opened Text
  import opened Extraction
  import DocaiBatch

  /** The yielded dictionary: process_pdf's four fields plus `file_name`. */
  datatype PipelineRecord = PipelineRecord(fields: ApplicationFields, fileName: string)

  datatype GcsLocation = GcsLocation(bucket: string, blob: string)

  /** `parts = path.split("/")`; `parts[2]` is the bucket and
      `"/".join(parts[3:])` the blob. `parts[2]` raises IndexError when the
      path holds fewer than two '/'. */
  function SplitGcsPath(path: string): (r: Result<GcsLocation>)
    ensures r.Raised? <==> Count(path, '/') < 2
    ensures r.Ok? ==> '/' !in r.value.bucket
  {
    var parts := Split(path, '/');
    if |parts| < 3 then Raised("list index out of range")
    else Ok(GcsLocation(parts[2], Join(parts[3..], '/')))
  }

  /** For `"gs://" + b + "/" + n` with no '/' in `b`, the bucket is `b` and
      the blob name is `n`, so the path is rebuilt from the two. */
  lemma GcsPathRoundTrip(b: string, n: string)
    requires '/' !in b
    ensures SplitGcsPath("gs://" + b + "/" + n) == Ok(GcsLocation(b, n))
    ensures "gs://" + b + "/" + n == "gs://" + SplitGcsPath("gs://" + b + "/" + n).value.bucket
      + "/" + SplitGcsPath("gs://" + b + "/" + n).value.blob
  {
    var path := "gs://" + b + "/" + n;
    assert path == "gs:" + ['/'] + ("" + ['/'] + (b + ['/'] + n));
    SplitAtFirst("gs:", '/', "" + ['/'] + (b + ['/'] + n));
    SplitAtFirst("", '/', b + ['/'] + n);
    SplitAtFirst(b, '/', n);
    var parts := Split(path, '/');
    assert parts == ["gs:", "", b] + Split(n, '/');
    assert parts[3..] == Split(n, '/');
    JoinSplit(n, '/');
  }

  /** `ProcessPdfFn.process(file_path)`: at most one record; none when the
      path split, the foreign call or one of the two `int()` calls raises. */
  function ProcessPath(path: string, ocr: (string, string) -> Result<string>): (out: seq<PipelineRecord>)
    ensures |out| <= 1
    ensures |out| == 1 <==>
      && SplitGcsPath(path).Ok?
      && var text := ocr(SplitGcsPath(path).value.bucket, SplitGcsPath(path).value.blob);
      && text.Ok?
      && !Overlong(text.value, IncomeLabel) && !Overlong(text.value, LoanLabel)
    ensures |out| == 1 ==> out[0].fileName == SplitGcsPath(path).value.blob
    ensures |out| == 1 ==>
      Ok(out[0].fields) == ExtractFields(ocr(SplitGcsPath(path).value.bucket, SplitGcsPath(path).value.blob).value)
  {
    match SplitGcsPath(path)
    case Raised(_) => []
    case Ok(loc) =>
      match ocr(loc.bucket, loc.blob)
      case Raised(_) => []
      case Ok(text) =>
        match ExtractFields(text)
        case Raised(_) => []
        case Ok(fields) => [PipelineRecord(fields, loc.blob)]
  }

  /** A path with fewer than two '/' yields nothing, whatever the OCR
      service would return. */
  lemma ShortPathYieldsNothing(path: string, ocr: (string, string) -> Result<string>)
    requires Count(path, '/') < 2
    ensures ProcessPath(path, ocr) == []
  {
  }

  /** For a well-formed `gs://` path whose document is read, the yielded
      record names the blob and carries the fields extracted from its text;
      nothing is yielded when extraction raises. */
  lemma ProcessGcsPath(b: string, n: string, ocr: (string, string) -> Result<string>)
    requires '/' !in b
    requires ocr(b, n).Ok?
    ensures ExtractFields(ocr(b, n).value).Ok? ==>
      ProcessPath("gs://" + b + "/" + n, ocr) == [PipelineRecord(ExtractFields(ocr(b, n).value).value, n)]
    ensures ExtractFields(ocr(b, n).value).Raised? ==> ProcessPath("gs://" + b + "/" + n, ocr) == []
  {
    GcsPathRoundTrip(b, n);
  }

  /** The pipeline (batch_pipeline.py:39-48) uses the same four patterns
      and the same defaults as docai.py's process_pdf (docai.py:46-59), which
      is why one `ExtractFields` models both. Once the document text is
      read, the pipeline yields a record exactly when process_pdf returns a
      row, and the record carries that row's fields. The scripts differ
      only on a failed fetch: the pipeline logs it, docai.py ends. */
  lemma SameFieldsAsDocai(path: string, ocr: (string, string) -> Result<string>)
    requires SplitGcsPath(path).Ok?
    requires ocr(SplitGcsPath(path).value.bucket, SplitGcsPath(path).value.blob).Ok?
    ensures
      var loc := SplitGcsPath(path).value;
      var row := DocaiBatch.ProcessPdf(ocr(loc.bucket, loc.blob));
      && row.Ok?
      && (|ProcessPath(path, ocr)| == 1 <==> row.value.Some?)
      && (row.value.Some? ==> ProcessPath(path, ocr) == [PipelineRecord(row.value.value, loc.blob)])
  {
  }
}
