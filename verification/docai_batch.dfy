/** The top-level loop of `legacy_experiments/docai.py`: walk the listed
    blobs, skip folder entries, process each PDF, keep the rows that came
    back, and insert them into BigQuery in batches of 50, with a final
    insert for any remainder.

    The listing is a sequence of blob names. Processing one blob is the
    parameter `process`: `Raised` is an exception from the download or the
    Document AI call, which sit outside process_pdf's `try` and end the
    script; `Ok(None)` is the `except` branch; `Ok(Some(row))` is a row.
    Each `insert_rows_json` call is one element of the returned inserts, in
    call order. */
module DocaiBatch {
  import opened Outcomes
  import opened Extraction

  const BatchSize: nat := 50

  /** process_pdf(blob), given what the download plus Document AI call
      returned: their exception propagates; inside the `try`, an `int()`
      failure gives None, and otherwise the four fields are the row. */
  function ProcessPdf(fetched: Result<string>): (r: Result<Option<ApplicationFields>>)
    ensures fetched.Raised? ==> r == Raised(fetched.message)
    ensures fetched.Ok? ==> r.Ok?
    ensures fetched.Ok? ==>
      (r.value.None? <==> Overlong(fetched.value, IncomeLabel) || Overlong(fetched.value, LoanLabel))
    ensures fetched.Ok? && r.value.Some? ==> ExtractFields(fetched.value) == Ok(r.value.value)
  {
    match fetched
    case Raised(m) => Raised(m)
    case Ok(text) =>
      match ExtractFields(text)
      case Raised(_) => Ok(None)
      case Ok(fields) => Ok(Some(fields))
  }

  /** `blob.name.endswith("/")`. */
  predicate IsFolder(name: string) {
    |name| > 0 && name[|name| - 1] == '/'
  }

  /** The names handed to process_pdf: every non-folder name, as often as
      it is listed (order: NonFoldersAppend). */
  function NonFolders(names: seq<string>): (r: seq<string>)
    ensures forall n | n in r :: n in names && !IsFolder(n)
    ensures forall n | n in names && !IsFolder(n) :: n in r
    ensures forall n {:trigger multiset(r)[n]} :: multiset(r)[n] == if IsFolder(n) then 0 else multiset(names)[n]
    decreases |names|
  {
    if |names| == 0 then []
    else
      var init := NonFolders(names[..|names| - 1]);
      var last := names[|names| - 1];
      assert names == names[..|names| - 1] + [last];
      assert forall n | n in names[..|names| - 1] :: n in names;
      assert forall n | n in names :: n in names[..|names| - 1] || n == last;
      if IsFolder(last) then init else init + [last]
  }

  /** Filtering a listing in two parts filters each part, in listing order. */
  lemma {:induction false} NonFoldersAppend(a: seq<string>, b: seq<string>)
    ensures NonFolders(a + b) == NonFolders(a) + NonFolders(b)
    decreases |b|
  {
    if |b| == 0 {
      assert a + b == a;
    } else {
      var b0 := b[..|b| - 1];
      assert (a + b)[..|a + b| - 1] == a + b0;
      NonFoldersAppend(a, b0);
    }
  }

  /** Index of the first non-folder blob whose download or Document AI call
      raises, or the length of the listing when there is none. */
  function FirstFailure<R>(names: seq<string>, process: string -> Result<Option<R>>): (i: nat)
    ensures i <= |names|
    ensures forall j | 0 <= j < i :: IsFolder(names[j]) || process(names[j]).Ok?
    ensures i < |names| ==> !IsFolder(names[i]) && process(names[i]).Raised?
    decreases |names|
  {
    if |names| == 0 then 0
    else if !IsFolder(names[0]) && process(names[0]).Raised? then 0
    else 1 + FirstFailure(names[1..], process)
  }

  /** `rows_to_insert` over a listing: one row per non-folder blob whose
      processing returned a row, in listing order. */
  function Kept<R(==)>(names: seq<string>, process: string -> Result<Option<R>>): (rows: seq<R>)
    ensures |rows| <= |names|
    decreases |names|
  {
    if |names| == 0 then []
    else
      var init := Kept(names[..|names| - 1], process);
      var last := names[|names| - 1];
      if IsFolder(last) then init
      else match process(last)
        case Ok(Some(row)) => init + [row]
        case _ => init
  }

  /** Every kept row is the row some listed non-folder blob produced. */
  lemma {:induction false} KeptProvenance<R>(names: seq<string>, process: string -> Result<Option<R>>)
    ensures forall x | x in Kept(names, process) ::
      exists n | n in names :: !IsFolder(n) && process(n) == Ok(Some(x))
    decreases |names|
  {
    if |names| > 0 {
      var init := names[..|names| - 1];
      var last := names[|names| - 1];
      KeptProvenance(init, process);
      assert forall n | n in init :: n in names;
    }
  }

  function Flatten<R(==)>(batches: seq<seq<R>>): seq<R>
    decreases |batches|
  {
    if |batches| == 0 then [] else batches[0] + Flatten(batches[1..])
  }

  /** `batches` cuts `rows` into consecutive non-empty pieces of at most
      BatchSize rows, all but the last exactly BatchSize long. */
  predicate IsBatching<R(==)>(batches: seq<seq<R>>, rows: seq<R>) {
    && Flatten(batches) == rows
    && (forall i | 0 <= i < |batches| :: 0 < |batches[i]| <= BatchSize)
    && (forall i | 0 <= i < |batches| - 1 :: |batches[i]| == BatchSize)
  }

  /** The reference cut of `rows` into BatchSize pieces. */
  function Chunk<R(==)>(rows: seq<R>): (batches: seq<seq<R>>)
    ensures IsBatching(batches, rows)
    decreases |rows|
  {
    if |rows| == 0 then []
    else if |rows| <= BatchSize then
      assert Flatten([rows]) == rows + [];
      [rows]
    else
      var rest := Chunk(rows[BatchSize..]);
      var batches := [rows[..BatchSize]] + rest;
      assert batches[1..] == rest;
      assert rows[..BatchSize] + rows[BatchSize..] == rows;
      batches
  }

  lemma {:induction false} FlattenAppend<R>(batches: seq<seq<R>>, b: seq<R>)
    ensures Flatten(batches + [b]) == Flatten(batches) + b
    decreases |batches|
  {
    if |batches| == 0 {
      assert Flatten([b]) == b + [];
    } else {
      assert (batches + [b])[1..] == batches[1..] + [b];
      FlattenAppend(batches[1..], b);
    }
  }

  /** Any batching of `rows` is the reference cut: the cut is unique. */
  lemma {:induction false} BatchingIsChunk<R>(batches: seq<seq<R>>, rows: seq<R>)
    requires IsBatching(batches, rows)
    ensures batches == Chunk(rows)
    decreases |rows|
  {
    if |batches| == 1 {
      assert Flatten(batches) == batches[0] + [];
      assert rows == batches[0] && 0 < |rows| <= BatchSize;
      assert batches == [rows];
    } else if |batches| > 1 {
      var rest := batches[1..];
      assert |Flatten(rest)| >= |rest[0]| > 0;
      assert rows[..BatchSize] == batches[0];
      assert rows[BatchSize..] == Flatten(rest);
      assert IsBatching(rest, rows[BatchSize..]);
      BatchingIsChunk(rest, rows[BatchSize..]);
      assert batches == [batches[0]] + rest;
    }
  }

  /** The insert calls of one run: the in-loop flushes, then the final
      insert when the remainder is non-empty. */
  function Inserts<R(==)>(loopBatches: seq<seq<R>>, remainder: seq<R>): seq<seq<R>> {
    if |remainder| == 0 then loopBatches else loopBatches + [remainder]
  }

  /** One step of the loop's buffering: append the row, if any, and insert
      the buffer as soon as it holds BatchSize rows. */
  method Buffer<R>(inserts: seq<seq<R>>, buffer: seq<R>, row: Option<R>)
    returns (inserts': seq<seq<R>>, buffer': seq<R>)
    requires forall j | 0 <= j < |inserts| :: |inserts[j]| == BatchSize
    requires |buffer| < BatchSize
    ensures forall j | 0 <= j < |inserts'| :: |inserts'[j]| == BatchSize
    ensures |buffer'| < BatchSize
    ensures Flatten(inserts') + buffer' ==
      Flatten(inserts) + (if row.Some? then buffer + [row.value] else buffer)
  {
    inserts', buffer' := inserts, buffer;
    if row.Some? {
      buffer' := buffer' + [row.value];
    }
    if |buffer'| >= BatchSize {
      FlattenAppend(inserts', buffer');
      inserts' := inserts' + [buffer'];
      buffer' := [];
      assert Flatten(inserts') + buffer' == Flatten(inserts');
    }
  }

  /** The main loop of docai.py. `processed` lists the blobs handed to
      process_pdf and `inserts` the insert calls made. When a download or
      Document AI call raises, the script ends: `failure` carries the
      message, later blobs are never processed, and the rows buffered since
      the last flush (`lost`) are never inserted. */
  method IngestBlobs<R(==)>(names: seq<string>, process: string -> Result<Option<R>>)
    returns (processed: seq<string>, inserts: seq<seq<R>>, lost: seq<R>, failure: Option<string>)
    ensures failure.Some? <==> FirstFailure(names, process) < |names|
    ensures failure.None? ==> processed == NonFolders(names)
    ensures failure.None? ==> inserts == Chunk(Kept(names, process)) && lost == []
    ensures failure.Some? ==>
      var stop := FirstFailure(names, process);
      && failure.value == process(names[stop]).message
      && processed == NonFolders(names[..stop + 1])
      && (forall i | 0 <= i < |inserts| :: |inserts[i]| == BatchSize)
      && |lost| < BatchSize
      && Inserts(inserts, lost) == Chunk(Kept(names[..stop], process))
  {
    processed := [];
    inserts := [];
    lost := [];
    failure := None;
    var buffer: seq<R> := [];
    for i := 0 to |names|
      invariant processed == NonFolders(names[..i])
      invariant i <= FirstFailure(names, process)
      invariant forall j | 0 <= j < |inserts| :: |inserts[j]| == BatchSize
      invariant |buffer| < BatchSize
      invariant Flatten(inserts) + buffer == Kept(names[..i], process)
    {
      var name := names[i];
      ListingStep(names, process, i);
      var row: Option<R> := None;
      if !IsFolder(name) {
        processed := processed + [name];
        var outcome := process(name);
        if outcome.Raised? {
          FailureAt(names, process, i);
          failure := Some(outcome.message);
          lost := buffer;
          InsertsAreChunk(inserts, lost, Kept(names[..i], process));
          return;
        }
        row := outcome.value;
      }
      PastFailure(names, process, i);
      KeepRow(names, process, i, Flatten(inserts), buffer, row);
      inserts, buffer := Buffer(inserts, buffer, row);
    }
    assert names[..|names|] == names;
    InsertsAreChunk(inserts, buffer, Kept(names, process));
    inserts := Inserts(inserts, buffer);
  }

  /** One more listed name: it is processed unless it is a folder, and its
      row, if any, is kept after the earlier ones. */
  lemma ListingStep<R>(names: seq<string>, process: string -> Result<Option<R>>, i: nat)
    requires i < |names|
    ensures NonFolders(names[..i + 1]) ==
      NonFolders(names[..i]) + (if IsFolder(names[i]) then [] else [names[i]])
    ensures Kept(names[..i + 1], process) ==
      Kept(names[..i], process) +
      (if !IsFolder(names[i]) && process(names[i]).Ok? && process(names[i]).value.Some?
       then [process(names[i]).value.value] else [])
  {
    assert names[..i + 1][..i] == names[..i];
  }

  /** The rows kept so far, extended by the row (if any) the next blob
      yields, are the rows kept from the longer prefix. */
  lemma KeepRow<R>(names: seq<string>, process: string -> Result<Option<R>>, i: nat,
                   flushed: seq<R>, buffer: seq<R>, row: Option<R>)
    requires i < |names|
    requires flushed + buffer == Kept(names[..i], process)
    requires IsFolder(names[i]) ==> row.None?
    requires !IsFolder(names[i]) ==> process(names[i]) == Ok(row)
    ensures flushed + (if row.Some? then buffer + [row.value] else buffer) == Kept(names[..i + 1], process)
  {
    ListingStep(names, process, i);
    if row.Some? {
      assert flushed + (buffer + [row.value]) == (flushed + buffer) + [row.value];
    }
  }

  /** The blob that raises at or before the first failure is the first
      failure. */
  lemma FailureAt<R>(names: seq<string>, process: string -> Result<Option<R>>, i: nat)
    requires i < |names| && i <= FirstFailure(names, process)
    requires !IsFolder(names[i]) && process(names[i]).Raised?
    ensures FirstFailure(names, process) == i
  {
  }

  /** A blob that does not raise lies before the first failure. */
  lemma PastFailure<R>(names: seq<string>, process: string -> Result<Option<R>>, i: nat)
    requires i < |names| && i <= FirstFailure(names, process)
    requires IsFolder(names[i]) || process(names[i]).Ok?
    ensures i + 1 <= FirstFailure(names, process)
  {
  }

  /** Full in-loop batches plus a short remainder are the reference cut. */
  lemma InsertsAreChunk<R>(loopBatches: seq<seq<R>>, remainder: seq<R>, rows: seq<R>)
    requires forall i | 0 <= i < |loopBatches| :: |loopBatches[i]| == BatchSize
    requires |remainder| < BatchSize
    requires Flatten(loopBatches) + remainder == rows
    ensures Inserts(loopBatches, remainder) == Chunk(rows)
  {
    InsertsAreBatching(loopBatches, remainder, rows);
    BatchingIsChunk(Inserts(loopBatches, remainder), rows);
  }

  lemma InsertsAreBatching<R>(loopBatches: seq<seq<R>>, remainder: seq<R>, rows: seq<R>)
    requires forall i | 0 <= i < |loopBatches| :: |loopBatches[i]| == BatchSize
    requires |remainder| < BatchSize
    requires Flatten(loopBatches) + remainder == rows
    ensures IsBatching(Inserts(loopBatches, remainder), rows)
  {
    if |remainder| > 0 {
      FlattenAppend(loopBatches, remainder);
    } else {
      assert Flatten(loopBatches) + remainder == Flatten(loopBatches);
    }
  }

  /** Folder entries are never processed: the kept rows do not depend on
      what `process` would return for them. */
  lemma {:induction false} KeptIgnoresFolders<R>(names: seq<string>, p1: string -> Result<Option<R>>, p2: string -> Result<Option<R>>)
    requires forall n | n in names && !IsFolder(n) :: p1(n) == p2(n)
    ensures Kept(names, p1) == Kept(names, p2)
    decreases |names|
  {
    if |names| > 0 {
      assert forall n | n in names[..|names| - 1] :: n in names;
      KeptIgnoresFolders(names[..|names| - 1], p1, p2);
      assert names[|names| - 1] in names;
    }
  }

  /** A row is kept exactly for the non-folder blobs whose processing
      returned one: the kept rows are the processed results with the Nones
      dropped. */
  function Somes<R(==)>(xs: seq<Result<Option<R>>>): seq<R>
    decreases |xs|
  {
    if |xs| == 0 then []
    else
      var last := xs[|xs| - 1];
      Somes(xs[..|xs| - 1]) + (if last.Ok? && last.value.Some? then [last.value.value] else [])
  }

  /** The results of process_pdf on each of `ps`, in order. */
  function Results<R>(ps: seq<string>, process: string -> Result<Option<R>>): (xs: seq<Result<Option<R>>>)
    ensures |xs| == |ps|
    ensures forall i | 0 <= i < |ps| :: xs[i] == process(ps[i])
    decreases |ps|
  {
    if |ps| == 0 then [] else Results(ps[..|ps| - 1], process) + [process(ps[|ps| - 1])]
  }

  lemma {:induction false} KeptIsSomesOfProcessed<R>(names: seq<string>, process: string -> Result<Option<R>>)
    ensures Kept(names, process) == Somes(Results(NonFolders(names), process))
    decreases |names|
  {
    if |names| > 0 {
      var init := names[..|names| - 1];
      KeptIsSomesOfProcessed(init, process);
      var ps := NonFolders(init);
      var last := names[|names| - 1];
      if !IsFolder(last) {
        assert (ps + [last])[..|ps|] == ps;
      }
    }
  }
}
