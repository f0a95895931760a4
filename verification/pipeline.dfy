/**
 * The body of the per-source `try` block both handlers share: download,
 * convert with limits, export, collect statistics, and turn a failure at any
 * step into an error message with the prefix of its kind.
 */
module Pipeline {
  import opened Wrappers
  import opened Documents

  /**
   * The download of one source (`client.get` then `raise_for_status`): the
   * fetched bytes, or the error raised. A connection failure or a timeout is
   * an `httpx.RequestError`. The `httpx.HTTPStatusError` that
   * `raise_for_status` raises for any non-2xx reply (redirects are not
   * followed), and `httpx.InvalidURL`, are not, so they are `OtherError`s.
   */
  type Fetch = Attempt<seq<bv8>>

  /** What is handed to `converter.convert`: the named stream and the keyword arguments. */
  datatype ConversionRequest = ConversionRequest(name: string, content: seq<bv8>, limits: map<ConvertArg, int>)

  /**
   * The converter: for each request, the document it returns or the error it
   * raises (which may itself be an `httpx.RequestError`).
   */
  type Converter = ConversionRequest -> Attempt<Document>

  const HttpRequestFailed: string := "HTTP request failed: "
  const ProcessingFailed: string := "Processing failed: "

  /** The message an `except` clause records: the prefix chosen by the error's kind, then `str(e)`. */
  function Report(e: Error): string {
    match e
    case RequestError(m) => HttpRequestFailed + m
    case OtherError(m) => ProcessingFailed + m
  }

  /** The recorded message names the error's kind: it starts with "HTTP request failed: " exactly for a `RequestError`. */
  lemma ReportNamesKind(e: Error)
    ensures HttpRequestFailed <= Report(e) <==> e.RequestError?
    ensures ProcessingFailed <= Report(e) <==> e.OtherError?
    ensures Report(e)[|Report(e)| - |e.message|..] == e.message
  {
    assert Report(e)[0] == if e.RequestError? then 'H' else 'P';
  }

  /** What a successful pass over one source yields. */
  datatype Converted = Converted(filename: string, content: string, pageCount: Option<nat>, stats: EnrichmentStats)

  /** The result of one pass: the converted source, or the message recorded for its failure. */
  datatype Outcome = Passed(value: Converted) | FailedWith(message: string)

  /** The request the converter receives for a downloaded source. */
  function RequestFor(source: string, content: seq<bv8>, maxPages: Limit, maxFileSize: Limit): ConversionRequest {
    ConversionRequest(Filename(source), content, ConvertKwargs(maxPages, maxFileSize))
  }

  /**
   * The outcome of one pass over a source: the first step that raises
   * (download, conversion, export) ends the pass with its report.
   */
  function Run(source: string, fetch: Fetch, convert: Converter, format: string,
               maxPages: Limit, maxFileSize: Limit): Outcome
  {
    match fetch
    case Raised(e) => FailedWith(Report(e))
    case Done(content) =>
      match convert(RequestFor(source, content, maxPages, maxFileSize))
      case Raised(e) => FailedWith(Report(e))
      case Done(doc) =>
        match Export(doc, SelectExport(format))
        case Raised(e) => FailedWith(Report(e))
        case Done(text) => Passed(Converted(Filename(source), text, doc.pageCount, Stats(doc)))
  }

  /**
   * A pass succeeds exactly when the download, the conversion of the named
   * stream with its limits, and the export in the selected format all
   * succeed; it then carries the stream name, the exported text, the page
   * count and the document's statistics.
   */
  lemma RunSucceeds(source: string, fetch: Fetch, convert: Converter, format: string,
                    maxPages: Limit, maxFileSize: Limit)
    ensures var r := Run(source, fetch, convert, format, maxPages, maxFileSize);
            r.Passed? <==>
              fetch.Done? &&
              convert(RequestFor(source, fetch.value, maxPages, maxFileSize)).Done? &&
              Export(convert(RequestFor(source, fetch.value, maxPages, maxFileSize)).value,
                     SelectExport(format)).Done?
    ensures var r := Run(source, fetch, convert, format, maxPages, maxFileSize);
            r.Passed? ==>
              var doc := convert(RequestFor(source, fetch.value, maxPages, maxFileSize)).value;
              r.value == Converted(Filename(source), Export(doc, SelectExport(format)).value,
                                   doc.pageCount, Stats(doc))
  {
  }

  /**
   * A failed pass records the first error raised in the `with` block, whichever
   * step raised it, and its message starts with "HTTP request failed: "
   * exactly when that error is an `httpx.RequestError`.
   */
  lemma FailurePrefix(source: string, fetch: Fetch, convert: Converter, format: string,
                      maxPages: Limit, maxFileSize: Limit)
    requires Run(source, fetch, convert, format, maxPages, maxFileSize).FailedWith?
    ensures var m := Run(source, fetch, convert, format, maxPages, maxFileSize).message;
            exists e: Error ::
              m == Report(e) &&
              (HttpRequestFailed <= m <==> e.RequestError?) &&
              (fetch == Raised(e) ||
               (fetch.Done? &&
                var converted := convert(RequestFor(source, fetch.value, maxPages, maxFileSize));
                (converted == Raised(e) ||
                 (converted.Done? && Export(converted.value, SelectExport(format)) == Raised(e)))))
  {
    var e :| (fetch == Raised(e) ||
              (fetch.Done? &&
               var converted := convert(RequestFor(source, fetch.value, maxPages, maxFileSize));
               (converted == Raised(e) ||
                (converted.Done? && Export(converted.value, SelectExport(format)) == Raised(e)))));
    ReportNamesKind(e);
  }

  /** The per-source steps: download outcome, stream name, limits, conversion, export, statistics. */
  method ConvertSource(source: string, fetch: Fetch, convert: Converter, format: string,
                       maxPages: Limit, maxFileSize: Limit) returns (r: Outcome)
    ensures r == Run(source, fetch, convert, format, maxPages, maxFileSize)
  {
    match fetch {
      case Raised(e) =>
        r := FailedWith(Report(e));
      case Done(content) =>
        var filename := Filename(source);
        var kwargs := BuildConvertKwargs(maxPages, maxFileSize);
        var converted := convert(ConversionRequest(filename, content, kwargs));
        match converted {
          case Raised(e) =>
            r := FailedWith(Report(e));
          case Done(doc) =>
            var output := Export(doc, SelectExport(format));
            match output {
              case Raised(e) =>
                r := FailedWith(Report(e));
              case Done(text) =>
                var stats := CollectStats(doc);
                r := Passed(Converted(filename, text, doc.pageCount, stats));
            }
        }
    }
  }

  /** The `metadata` record of a success. `deviceCapability` is absent in the batch handler. */
  datatype Metadata = Metadata(
    source: string,
    filename: string,
    pageCount: Option<nat>,
    exportFormat: string,
    deviceCapability: Option<string>,
    enrichmentsApplied: map<string, bool>,
    enrichmentStats: EnrichmentStats)
}
