# doc_processor core, modelled in Dafny

doc_processor wraps the docling document converter behind a web endpoint and a
serverless worker. This project models the parts of it that are its own logic:

- **the capability-tier configurator** (`processor.py`): the `DEVICE_CAPABILITY`
  value is lower-cased and falls back to `high`; `_build_pdf_options` builds a
  `PdfPipelineOptions` object field by field for `low`, `medium` or `high`; a
  separate `enrichment_flags` table says which enrichments each tier reports as
  applied. The batch handler's `create_enhanced_converter` (`handler.py`) builds
  the all-on options.
- **the per-source pipeline** both handlers run inside their `try` block: download,
  stream name from the URL, conversion limits, conversion, case-insensitive export
  dispatch with a markdown fallback, and the `enrichment_stats` counts.
- **the single-document handler** (`processor.py` `handler`): markdown only, no page
  limit, 100 MiB size limit, metadata carrying the tier and its table row; a
  failure is raised with a prefixed message.
- **the batch handler** (`handler.py` `handler`): one entry per source, in order;
  an empty source is recorded without a download; a failure is recorded against
  its own source and the loop continues; the totals count `success` and `failed`
  entries.

Modules, one per file: `Wrappers` (Option, Attempt), `Text` (ASCII `lower`,
`split`), `Tiers`, `Documents`, `Pipeline`, `Processor`, `Batch`.

The download and the converter are inputs. A `Fetch` value is the download
outcome of one source: the fetched bytes or the error raised. A `Converter` is
a total function from the conversion request (stream name, bytes, keyword
limits) to the document it returns or the error it raises; each export of the
document also returns its text or raises. Every raised error has one of the two
kinds the `except` clauses tell apart: an `httpx.RequestError`, or any other
exception. Whichever step raises it, a `RequestError` is recorded as
"HTTP request failed: " and any other error as "Processing failed: ". The batch
handler takes one `Fetch` per source, aligned by position.

Behaviour worth knowing, as the code has it:

- `raise_for_status` raises `httpx.HTTPStatusError` for any non-2xx reply
  (redirects are not followed), and that error is not an `httpx.RequestError`.
  Such a reply is therefore reported with the prefix "Processing failed: ", not
  "HTTP request failed: ". The same holds for `httpx.InvalidURL`. The model
  follows the code.
- With `AUTO_DETECT_PLATFORMS` on, `create_converter` builds the tier's options
  and then discards them (`Processor.CreateConverter`), yet the metadata still
  reports the tier's row of `enrichment_flags`. The agreement between the table
  and the options (`Tiers.EnrichmentTableAgrees`) holds for the PDF-only
  converter.
- The formula count compares each text item's label with the exact string
  "FORMULA". Which label values the converter produces is outside this model.

## Model

| member | source | states |
|---|---|---|
| `Text.Lower` | processor.py:15 | Lower-casing keeps the length, leaves no upper-case ASCII letter, maps each upper-case letter to its lower-case one and keeps every other character. |
| `Text.Split` | processor.py:100 | `split` yields at least one piece, and exactly one when the separator does not occur. |
| `Text.SplitJoin` | processor.py:100 | Joining the pieces of a split with the separator gives the string back, and no piece contains the separator. |
| `Text.LastPiece` | processor.py:100 | The last piece of a split is the suffix after the last separator (preceded by the separator), or the whole string when there is none. |
| `Tiers.NormaliseTier` | processor.py:15-20 | The tier is `low` or `medium` exactly when the lower-cased value is that name; every other value, and an unset variable, gives `high`; the result's name is always in `VALID_CAPABILITIES`. |
| `Tiers.NormaliseTierName` | processor.py:15-20 | Any capitalisation of a tier's name selects that tier. |
| `Tiers.AutoDetectPlatforms` | processor.py:14 | Auto-detection is on exactly when the variable is set and lower-cases to "true". |
| `Tiers.PdfPipelineOptions.constructor` | processor.py:25 | A new options object holds the library defaults. |
| `Tiers.BuildPdfOptions` | processor.py:22-67 | Returns a fresh options object whose fields are the tier's settings, assigned on top of the defaults. |
| `Tiers.TierSettings` | processor.py:27-65 | The reference definition of the options `_build_pdf_options` produces per tier; its properties are in `Tiers.LowSwitchesAllOff`, `Tiers.MediumSwitches`, `Tiers.HighSwitchesAllOn` and `Tiers.TiersAreMonotone`. |
| `Tiers.LowSwitchesAllOff` | processor.py:27-35 | Tier `low` turns off all seven switches and leaves images scale, picture preset, table options and OCR options at their defaults. |
| `Tiers.MediumSwitches` | processor.py:36-48 | Tier `medium` turns on exactly code, formula, table structure and OCR, with EasyOCR neither full-page nor on the GPU; scale, preset and table options stay at their defaults. |
| `Tiers.HighSwitchesAllOn` | processor.py:49-65 | Tier `high` turns on every switch, with images scale 2, the SmolVLM preset, cell matching in ACCURATE mode and full-page GPU EasyOCR, whatever the defaults. |
| `Tiers.TiersAreMonotone` | processor.py:27-65 | A switch on in `low` is on in `medium`, and one on in `medium` is on in `high`. |
| `Tiers.EnrichmentTable` | processor.py:128-153 | The reference definition of `enrichment_flags`; `Tiers.EnrichmentTableAgrees` states that it matches the options of every tier. |
| `Tiers.EnrichmentTableAgrees` | processor.py:127-161 | For every tier the table lookup by its name succeeds, the row has exactly the six keys, and each key's flag equals the switch `_build_pdf_options` sets for that tier. |
| `Tiers.UnreportedSwitch` | processor.py:128-153 | Picture-image generation is the one switch no metadata key reports. |
| `Tiers.CreateEnhancedOptions` | handler.py:15-40 | The batch converter's options are a fresh object equal to tier `high`'s settings. |
| `Tiers.EnhancedFlags` | handler.py:120-127 | The reference definition of the batch handler's all-true `enrichments_applied`; `Tiers.EnhancedFlagsAgree` states its agreement with the enhanced converter. |
| `Tiers.EnhancedFlagsAgree` | handler.py:120-127 | The batch handler's all-true `enrichments_applied` has the six keys, each equal to the enhanced converter's switch, and equals the `high` table row. |
| `Documents.Filename` | processor.py:100 | Without '/' the name is "document"; with one it is the (possibly empty) suffix after the last '/', containing no '/'. |
| `Documents.SelectExport` | processor.py:115-124 | html, json and text are selected exactly when the lower-cased format equals that name; every other format selects markdown. |
| `Documents.Export` | handler.py:103-112 | The reference definition of the `export_to_*` call for the selected format; `Pipeline.RunSucceeds` states that a pass exports with it. |
| `Documents.SelectExportIgnoresCase` | handler.py:103-112 | Two format strings with the same lower-case form select the same export. |
| `Documents.ConvertKwargs` | handler.py:92-96 | `max_num_pages` is passed exactly when the page limit is truthy and `max_file_size` exactly when the size limit is, each with the given value. |
| `Documents.BuildConvertKwargs` | processor.py:104-108 | Filling the keyword dictionary step by step yields exactly those keyword arguments. |
| `Documents.SingleDocumentLimits` | processor.py:87-89 | The single-document handler passes only `max_file_size` = 104857600 (100 MiB). |
| `Documents.FormulaCount` | processor.py:173-176 | The reference definition of the count the `for item in doc.texts` loop keeps; `Documents.FormulaCountIsPositions` states that it is the number of FORMULA-labelled positions and `Documents.CollectStats` that the loop computes it. |
| `Documents.FormulaCountIsPositions` | processor.py:173-176 | The formula count equals the number of positions holding an item labelled "FORMULA", so it never exceeds the number of text items. |
| `Documents.Stats` | processor.py:164-187 | The reference definition of the `enrichment_stats` record (also handler.py:130-153); `Documents.CollectStats` states that the step-by-step code computes it, with 0 for each absent list. |
| `Documents.CollectStats` | processor.py:164-187 | The loop counts the FORMULA-labelled texts; images, tables and code blocks are the list lengths, or 0 when the document lacks the list. |
| `Pipeline.RunSucceeds` | handler.py:82-159 | A pass succeeds exactly when download, conversion of the request (URL-derived name, bytes, limits) and export all succeed, and then carries name, exported text, page count and statistics. |
| `Pipeline.RequestFor` | handler.py:87-99 | The reference definition of what `converter.convert` receives: the URL-derived stream name, the downloaded bytes and the keyword arguments; `Pipeline.RunSucceeds` states that a pass converts exactly this request. |
| `Pipeline.Report` | handler.py:164-180 | The reference definition of the message an `except` clause records: the kind's prefix followed by `str(e)`; its properties are in `Pipeline.ReportNamesKind`. |
| `Pipeline.ReportNamesKind` | handler.py:164-180 | The recorded message starts with "HTTP request failed: " exactly for a `RequestError`, with "Processing failed: " exactly for any other error, and ends with the error's own message. |
| `Pipeline.Run` | handler.py:81-180 | The reference definition of one pass (the `try` body and its two `except` clauses): the first step that raises ends the pass with its report; its properties are in `Pipeline.RunSucceeds` and `Pipeline.FailurePrefix`. |
| `Pipeline.FailurePrefix` | handler.py:164-180 | A failed pass records the report of the error raised by the download, the conversion or the export, and its message starts with "HTTP request failed: " exactly when that error is an `httpx.RequestError`. |
| `Pipeline.ConvertSource` | handler.py:81-153 | The step-by-step per-source code computes exactly the pass's outcome. |
| `Processor.CreateConverter` | processor.py:69-79 | The converter is auto-detecting exactly when the flag is on; otherwise it is PDF-only with a fresh options object holding the tier's settings. |
| `Processor.Handle` | processor.py:83-201 | A failed pass is re-raised as a plain exception carrying its prefixed message; a success has status "success", requests conversion with only the 100 MiB size limit, returns the markdown export, and reports source, file name, page count, "markdown", the tier name, the tier's table row and the statistics. |
| `Batch.Handle` | handler.py:56-187 | No sources gives a 400 "No sources provided"; otherwise status 200, one entry per source in order, each the entry its own source yields, and totals equal to the numbers of success and failed entries. |
| `Batch.ExpectedEntry` | handler.py:73-180 | The reference definition of the entry one source yields; its properties are in `Batch.EntryStatus` and `Batch.ConverterRequestError`. |
| `Batch.ExpectedOutput` | handler.py:73-180 | The reference definition of `output`: one entry per source, in order; `Batch.Handle` is proved to produce it and `Batch.Isolation` states its per-source independence. |
| `Batch.CountStatus` | handler.py:185-186 | The reference definition of the status-count comprehensions; its properties are in `Batch.CountsPartition`, `Batch.AllSucceeded` and `Batch.CountsWithOneFailure`. |
| `Batch.FormatOf` | handler.py:63 | The reference definition of `input_data.get("export_format", "markdown")`; `Batch.Handle` and `Batch.EntryStatus` state the entries computed with it, and `Documents.SelectExport` how the format string is dispatched. |
| `Batch.FileSizeOf` | handler.py:65 | The reference definition of `input_data.get("max_file_size", 100 * 1024 * 1024)`; `Batch.BatchLimits` states which size limit the converter then receives. |
| `Batch.EntryStatus` | handler.py:73-180 | An entry for an empty source is always the "Empty source" error with that source, whatever its download outcome, and an entry has no status exactly then; it is failed, with the pass's message and its source, exactly when the pass fails; success exactly when it succeeds. |
| `Batch.Isolation` | handler.py:73-180 | Changing the source or download outcome at one position leaves every other position's entry unchanged. |
| `Batch.CountsPartition` | handler.py:185-186 | Every entry is counted exactly once: as success, as failed, or as having no status. |
| `Batch.UnmarkedAreEmptySources` | handler.py:74-76 | The entries without status are as many as the empty sources. |
| `Batch.TotalsAccountForAllSources` | handler.py:182-187 | Processed + failed + empty sources equals the number of sources. |
| `Batch.AllSucceeded` | handler.py:185-186 | When every entry succeeded, all are counted as processed and none as failed. |
| `Batch.CountsWithOneFailure` | handler.py:185-186 | When exactly one entry failed and the rest succeeded, the totals are n - 1 and 1. |
| `Batch.OneFailedDownload` | handler.py:164-187 | N non-empty sources of which one download fails and the rest convert give N - 1 processed and 1 failed, not a failed batch. |
| `Batch.BatchLimits` | handler.py:64-65 | An unset `max_file_size` is passed as 104857600; a null or zero size passes no size limit; a non-zero size is passed as given; `max_num_pages` is passed exactly for a non-zero page limit, with its value (the arguments are filled at handler.py:92-96). |
| `Batch.ConverterRequestError` | handler.py:164-171 | An `httpx.RequestError` raised by the converter after a successful download is recorded, for that source only, as "HTTP request failed: " followed by its message. |
| `Batch.SuccessFlagsMatchConverter` | handler.py:120-127 | Every success entry reports all six enrichments as true, each equal to the enhanced converter's switch. |

## Left out

- The HTTP download (httpx client, 60-second timeout, `raise_for_status`): network I/O, modelled as a `Fetch` outcome per source.
- docling's `DocumentConverter.convert` and the `export_to_*` methods: a foreign library, modelled as a `Converter` function and as the document's four export outcomes. The model does not tie the converter's behaviour to the options it was built with.
- The converter as a total function of the request: the same request always gets the same outcome, whatever was converted before it. docling's lazily built pipelines and transient failures on first use are not modelled, and `Batch.Isolation` holds under this assumption.
- The library defaults of `PdfPipelineOptions`, the meaning of the SmolVLM preset and of the OCR engine: foreign, so the defaults are a parameter and the presets are tags.
- Reading the environment and the module-level converter singletons (processor.py:14-15, 81; handler.py:53): the tier and the auto-detect flag are parameters; `NormaliseTier` and `AutoDetectPlatforms` model the string logic.
- `Text.Lower`: models `str.lower` on ASCII letters only; Unicode case mappings are not modelled.
- A `sources` item that is `None` or not a string, a job without `input`, and a null `export_format` (whose `.lower()` raises inside the `try`): items and the format are modelled as strings.
- Limit values that are not integers or null (booleans, strings): limits are integers or null.
- `include_images` is read by the batch handler and never used.
- The nested `table_structure_options` object is flattened into two fields of the options object; `images_scale` is a real number.
- All `print` output (including the unknown-tier warning), the runpod start call, `app.py` (FastAPI routing, bearer-token check), `preload_models.py` and `preloader.py` (model download and cache permissions).
