/**
 * The single-document handler: a converter configured for the device tier,
 * and the conversion of one source to markdown with the tier's metadata.
 */
module Processor {
  import opened Wrappers
  import opened Tiers
  import opened Documents
  import opened Pipeline

  /**
   * A document converter: either one that lets the library pick a pipeline
   * for every input format, or one restricted to PDF with the given options.
   */
  datatype ConverterSetup = AutoDetected | PdfOnly(options: PdfPipelineOptions)

  /**
   * `create_converter`: the tier's PDF options are always built; with
   * platform auto-detection the converter ignores them.
   */
  method CreateConverter(t: Tier, autoDetect: bool, defaults: PipelineSettings) returns (c: ConverterSetup)
    ensures c.AutoDetected? <==> autoDetect
    ensures c.PdfOnly? ==> fresh(c.options) && c.options.Settings() == TierSettings(t, defaults)
  {
    var pdfOption := BuildPdfOptions(t, defaults);
    if autoDetect {
      c := AutoDetected;
    } else {
      c := PdfOnly(pdfOption);
    }
  }

  /** The fixed `export_format` of this handler. */
  const ExportFormatName: string := "markdown"

  /** A successful conversion: the exported text, its metadata and the constant status "success". */
  datatype Processed = Processed(content: string, metadata: Metadata, status: string)

  /**
   * `handler(source)`: converts one source to markdown, with no page limit and
   * a 100 MiB size limit. A failure is re-raised as a plain `Exception` whose
   * message carries the prefix of the original error's kind; a
   * success reports the tier's name and the tier's row of the enrichment table.
   */
  method Handle(source: string, t: Tier, fetch: Fetch, convert: Converter) returns (r: Attempt<Processed>)
    ensures var run := Run(source, fetch, convert, ExportFormatName, Null, Value(MaxFileSizeDefault));
            (run.FailedWith? ==> r == Raised(OtherError(run.message))) &&
            (run.Passed? ==> r.Done? && r.value.content == run.value.content)
    ensures r.Done? ==>
              r.value.status == "success" &&
              fetch.Done? &&
              var converted := convert(ConversionRequest(Filename(source), fetch.value,
                                                         map[MaxFileSize := 104857600]));
              converted.Done? && converted.value.markdown == Done(r.value.content) &&
              r.value.metadata == Metadata(source, Filename(source), converted.value.pageCount,
                                           "markdown", Some(TierName(t)),
                                           EnrichmentTable()[TierName(t)], Stats(converted.value))
  {
    var converted := ConvertSource(source, fetch, convert, ExportFormatName, Null, Value(MaxFileSizeDefault));
    match converted {
      case FailedWith(m) =>
        r := Raised(OtherError(m));
      case Passed(c) =>
        var metadata := Metadata(source, c.filename, c.pageCount, ExportFormatName, Some(TierName(t)),
                                 EnrichmentTable()[TierName(t)], c.stats);
        r := Done(Processed(c.content, metadata, "success"));
    }
  }
}
