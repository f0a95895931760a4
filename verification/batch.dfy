/**
 * The serverless batch handler: every source of a job is converted on its
 * own, a failure is recorded against that source only, and the response
 * carries one entry per source plus the success and failure totals.
 */
module Batch {
  import opened Wrappers
  import opened Tiers
  import opened Documents
  import opened Pipeline

  /**
   * The job's `input` payload. A missing `sources` key reads as the empty
   * list; a missing `export_format` as "markdown"; the limits may be unset,
   * null or numbers.
   */
  datatype JobInput = JobInput(
    sources: seq<string>,
    exportFormat: Option<string>,
    maxPages: Limit,
    maxFileSize: Limit)

  /** One entry of `output`. */
  datatype Entry =
    | EmptySource(error: string, source: string)
    | Failed(error: string, source: string)
    | Succeeded(content: string, metadata: Metadata)

  /** The entry's `status` field, absent for an empty source. */
  function Status(e: Entry): Option<string> {
    match e
    case EmptySource(_, _) => None
    case Failed(_, _) => Some("failed")
    case Succeeded(_, _) => Some("success")
  }

  datatype Response =
    | Rejected(error: string, statusCode: int)
    | Completed(output: seq<Entry>, statusCode: int, totalProcessed: nat, totalFailed: nat)

  const NoSources: string := "No sources provided"
  const EmptySourceError: string := "Empty source"

  function FormatOf(input: JobInput): string {
    match input.exportFormat
    case Some(f) => f
    case None => "markdown"
  }

  function FileSizeOf(input: JobInput): Limit {
    WithDefault(input.maxFileSize, MaxFileSizeDefault)
  }

  /** The entry one source should produce, given its download outcome. */
  function ExpectedEntry(input: JobInput, source: string, fetch: Fetch, convert: Converter): Entry {
    if source == "" then EmptySource(EmptySourceError, source)
    else
      match Run(source, fetch, convert, FormatOf(input), input.maxPages, FileSizeOf(input))
      case FailedWith(m) => Failed(m, source)
      case Passed(c) =>
        Succeeded(c.content, Metadata(source, c.filename, c.pageCount, FormatOf(input), None,
                                      EnhancedFlags(), c.stats))
  }

  /** The entries of a job, one per source, in order. */
  function ExpectedOutput(input: JobInput, fetches: seq<Fetch>, convert: Converter): seq<Entry>
    requires |fetches| == |input.sources|
  {
    seq(|input.sources|, k requires 0 <= k < |input.sources| =>
          ExpectedEntry(input, input.sources[k], fetches[k], convert))
  }

  /** `len([r for r in results if r.get("status") == status])`. */
  function CountStatus(entries: seq<Entry>, status: string): nat
    decreases |entries|
  {
    if entries == [] then 0
    else (if Status(entries[0]) == Some(status) then 1 else 0) + CountStatus(entries[1..], status)
  }

  /** The number of entries with no `status` field. */
  function CountUnmarked(entries: seq<Entry>): nat
    decreases |entries|
  {
    if entries == [] then 0
    else (if Status(entries[0]).None? then 1 else 0) + CountUnmarked(entries[1..])
  }

  /**
   * `handler(job)`: no sources is a 400 with "No sources provided". Otherwise
   * each source, in order, appends exactly one entry; an empty source is
   * recorded without being fetched, and a failure is recorded against its own
   * source while the loop goes on. The totals count the success and the
   * failed entries.
   */
  method Handle(input: JobInput, fetches: seq<Fetch>, convert: Converter) returns (resp: Response)
    requires |fetches| == |input.sources|
    ensures input.sources == [] ==> resp == Rejected(NoSources, 400)
    ensures input.sources != [] ==>
              resp.Completed? && resp.statusCode == 200 &&
              resp.output == ExpectedOutput(input, fetches, convert) &&
              resp.totalProcessed == CountStatus(resp.output, "success") &&
              resp.totalFailed == CountStatus(resp.output, "failed")
  {
    var sources := input.sources;
    var exportFormat := FormatOf(input);
    var maxPages := input.maxPages;
    var maxFileSize := FileSizeOf(input);
    if sources == [] {
      return Rejected(NoSources, 400);
    }
    var results: seq<Entry> := [];
    var i := 0;
    while i < |sources|
      invariant 0 <= i <= |sources|
      invariant |results| == i
      invariant forall k :: 0 <= k < i ==> results[k] == ExpectedEntry(input, sources[k], fetches[k], convert)
    {
      var source := sources[i];
      if source == "" {
        results := results + [EmptySource(EmptySourceError, source)];
      } else {
        var r := ConvertSource(source, fetches[i], convert, exportFormat, maxPages, maxFileSize);
        match r {
          case FailedWith(m) =>
            results := results + [Failed(m, source)];
          case Passed(c) =>
            var metadata := Metadata(source, c.filename, c.pageCount, exportFormat, None, EnhancedFlags(), c.stats);
            results := results + [Succeeded(c.content, metadata)];
        }
      }
      i := i + 1;
    }
    resp := Completed(results, 200, CountStatus(results, "success"), CountStatus(results, "failed"));
  }

  /**
   * How each entry reads: it has no status exactly when its source is empty;
   * otherwise it is "failed" exactly when the pass over its source failed,
   * carrying that pass's prefixed message and the source, and "success"
   * exactly when the pass succeeded.
   */
  lemma EntryStatus(input: JobInput, source: string, fetch: Fetch, convert: Converter)
    ensures var e := ExpectedEntry(input, source, fetch, convert);
            var run := Run(source, fetch, convert, FormatOf(input), input.maxPages, FileSizeOf(input));
            (Status(e).None? <==> source == "") &&
            (source == "" ==> e == EmptySource(EmptySourceError, source)) &&
            (Status(e) == Some("failed") <==> source != "" && run.FailedWith?) &&
            (e.Failed? ==> e == Failed(run.message, source)) &&
            (Status(e) == Some("success") <==> source != "" && run.Passed?)
  {
  }

  /**
   * Failure isolation: changing the source or download outcome at one
   * position changes no other position's entry.
   */
  lemma Isolation(input: JobInput, fetches: seq<Fetch>, input2: JobInput, fetches2: seq<Fetch>,
                  convert: Converter, j: nat)
    requires |fetches| == |input.sources| && |fetches2| == |input2.sources| == |input.sources|
    requires input2 == input.(sources := input2.sources)
    requires forall k :: 0 <= k < |input.sources| && k != j ==>
               input2.sources[k] == input.sources[k] && fetches2[k] == fetches[k]
    ensures forall k :: 0 <= k < |input.sources| && k != j ==>
              ExpectedOutput(input2, fetches2, convert)[k] == ExpectedOutput(input, fetches, convert)[k]
  {
  }

  /** Every entry is counted once: as a success, as a failure, or as unmarked. */
  lemma {:induction false} CountsPartition(entries: seq<Entry>)
    ensures CountStatus(entries, "success") + CountStatus(entries, "failed") + CountUnmarked(entries) == |entries|
    decreases |entries|
  {
    if entries != [] {
      CountsPartition(entries[1..]);
    }
  }

  /** The unmarked entries are as many as the positions whose source is empty. */
  lemma {:induction false} UnmarkedAreEmptySources(entries: seq<Entry>, sources: seq<string>)
    requires |entries| == |sources|
    requires forall k :: 0 <= k < |entries| ==> (Status(entries[k]).None? <==> sources[k] == "")
    ensures CountUnmarked(entries) == multiset(sources)[""]
    decreases |entries|
  {
    if entries != [] {
      UnmarkedAreEmptySources(entries[1..], sources[1..]);
      assert sources == [sources[0]] + sources[1..];
      assert multiset(sources) == multiset([sources[0]]) + multiset(sources[1..]);
    }
  }

  /**
   * The totals of a completed response and the empty sources account for
   * every source: processed + failed + empty == number of sources.
   */
  lemma TotalsAccountForAllSources(input: JobInput, fetches: seq<Fetch>, convert: Converter)
    requires |fetches| == |input.sources|
    ensures var out := ExpectedOutput(input, fetches, convert);
            CountStatus(out, "success") + CountStatus(out, "failed") + multiset(input.sources)[""]
              == |input.sources|
  {
    var out := ExpectedOutput(input, fetches, convert);
    CountsPartition(out);
    forall k | 0 <= k < |out| ensures Status(out[k]).None? <==> input.sources[k] == "" {
      EntryStatus(input, input.sources[k], fetches[k], convert);
    }
    UnmarkedAreEmptySources(out, input.sources);
  }

  /** When every entry but the one at `j` succeeds and that one fails, the totals are |entries| - 1 and 1. */
  lemma {:induction false} CountsWithOneFailure(entries: seq<Entry>, j: nat)
    requires j < |entries|
    requires Status(entries[j]) == Some("failed")
    requires forall k :: 0 <= k < |entries| && k != j ==> Status(entries[k]) == Some("success")
    ensures CountStatus(entries, "success") == |entries| - 1
    ensures CountStatus(entries, "failed") == 1
    decreases |entries|
  {
    var rest := entries[1..];
    if j == 0 {
      AllSucceeded(rest);
    } else {
      forall k | 0 <= k < |rest| && k != j - 1 ensures Status(rest[k]) == Some("success") {
        assert rest[k] == entries[k + 1];
      }
      CountsWithOneFailure(rest, j - 1);
    }
  }

  /** Entries that all succeeded are all counted as successes and none as failures. */
  lemma {:induction false} AllSucceeded(entries: seq<Entry>)
    requires forall k :: 0 <= k < |entries| ==> Status(entries[k]) == Some("success")
    ensures CountStatus(entries, "success") == |entries|
    ensures CountStatus(entries, "failed") == 0
    decreases |entries|
  {
    if entries != [] {
      AllSucceeded(entries[1..]);
    }
  }

  /**
   * A batch of non-empty sources in which exactly one download fails and
   * every other source converts yields |sources| - 1 successes and 1 failure,
   * not a failed batch.
   */
  lemma OneFailedDownload(input: JobInput, fetches: seq<Fetch>, convert: Converter, j: nat)
    requires |fetches| == |input.sources| && j < |input.sources|
    requires forall k :: 0 <= k < |input.sources| ==> input.sources[k] != ""
    requires fetches[j].Raised?
    requires forall k :: 0 <= k < |input.sources| && k != j ==>
               Run(input.sources[k], fetches[k], convert, FormatOf(input), input.maxPages, FileSizeOf(input)).Passed?
    ensures var out := ExpectedOutput(input, fetches, convert);
            CountStatus(out, "success") == |input.sources| - 1 && CountStatus(out, "failed") == 1
  {
    var out := ExpectedOutput(input, fetches, convert);
    forall k | 0 <= k < |out| ensures Status(out[k]) == if k == j then Some("failed") else Some("success") {
      EntryStatus(input, input.sources[k], fetches[k], convert);
    }
    CountsWithOneFailure(out, j);
  }

  /**
   * Every success entry reports all six enrichments as applied, and each flag
   * matches the switch the batch handler's enhanced converter sets.
   */
  lemma SuccessFlagsMatchConverter(input: JobInput, source: string, fetch: Fetch, convert: Converter,
                                   defaults: PipelineSettings)
    requires ExpectedEntry(input, source, fetch, convert).Succeeded?
    ensures var flags := ExpectedEntry(input, source, fetch, convert).metadata.enrichmentsApplied;
            flags.Keys == EnrichmentKeys() &&
            forall key :: key in EnrichmentKeys() ==>
              flags[key] && flags[key] == IsOn(TierSettings(High, defaults), SwitchOf(key))
  {
  }

  /**
   * The limits a job passes to the converter: an unset `max_file_size` becomes
   * the 100 MiB default; a null or zero size passes none; a non-zero size is
   * passed as given; `max_num_pages` is passed only for a non-zero page limit.
   */
  lemma BatchLimits(input: JobInput)
    ensures var kw := ConvertKwargs(input.maxPages, FileSizeOf(input));
            (input.maxFileSize.Unset? ==> MaxFileSize in kw && kw[MaxFileSize] == 104857600) &&
            (input.maxFileSize.Null? || input.maxFileSize == Value(0) ==> MaxFileSize !in kw) &&
            (input.maxFileSize.Value? && input.maxFileSize.n != 0 ==>
               MaxFileSize in kw && kw[MaxFileSize] == input.maxFileSize.n) &&
            (MaxNumPages in kw <==> input.maxPages.Value? && input.maxPages.n != 0) &&
            (MaxNumPages in kw ==> kw[MaxNumPages] == input.maxPages.n)
  {
  }

  /**
   * An `httpx.RequestError` raised by the converter after a successful download
   * is recorded as "HTTP request failed: ", like a failed download, and the
   * entry stays a per-source failure.
   */
  lemma ConverterRequestError(input: JobInput, source: string, fetch: Fetch, convert: Converter, m: string)
    requires source != "" && fetch.Done?
    requires convert(RequestFor(source, fetch.value, input.maxPages, FileSizeOf(input))) == Raised(RequestError(m))
    ensures ExpectedEntry(input, source, fetch, convert) == Failed(HttpRequestFailed + m, source)
  {
  }
}
