/**
 * The converted document as the handlers see it, and the helpers both
 * handlers apply to one source: the stream's file name, the conversion
 * limits, the export-format dispatch and the enrichment statistics.
 */
module Documents {
  import opened Wrappers
  import opened Text

  /** An element of the converted document; `itemLabel` is absent when the item has no such attribute. */
  datatype DocItem = DocItem(itemLabel: Option<string>)

  /**
   * The document the converter returns. The element lists other than `texts`
   * may be absent (the handlers test them with `hasattr`); each export method
   * either returns its text or raises.
   */
  datatype Document = Document(
    texts: seq<DocItem>,
    pictures: Option<seq<DocItem>>,
    tables: Option<seq<DocItem>>,
    code: Option<seq<DocItem>>,
    pageCount: Option<nat>,
    markdown: Attempt<string>,
    html: Attempt<string>,
    json: Attempt<string>,
    text: Attempt<string>)

  // ---------------------------------------------------------------- file name

  /**
   * The stream name: the text after the last '/' of the source when it
   * contains one (`source.split("/")[-1]`), otherwise "document".
   */
  function Filename(source: string): (name: string)
    ensures '/' !in source ==> name == "document"
    ensures '/' in source ==> '/' !in name && |name| < |source| &&
                              source[|source| - |name|..] == name &&
                              source[|source| - |name| - 1] == '/'
  {
    if '/' in source then
      var parts := Split(source, '/');
      LastPiece(source, '/');
      parts[|parts| - 1]
    else "document"
  }

  // ------------------------------------------------------------- export format

  datatype ExportFormat = Markdown | Html | Json | PlainText

  /** The export-format dispatch: case-insensitive, markdown for anything unrecognised. */
  function SelectExport(format: string): (f: ExportFormat)
    ensures f == Html <==> Lower(format) == "html"
    ensures f == Json <==> Lower(format) == "json"
    ensures f == PlainText <==> Lower(format) == "text"
    ensures f == Markdown <==> Lower(format) !in {"html", "json", "text"}
  {
    if Lower(format) == "markdown" then Markdown
    else if Lower(format) == "html" then Html
    else if Lower(format) == "json" then Json
    else if Lower(format) == "text" then PlainText
    else Markdown
  }

  /** Two spellings that differ only in letter case select the same format. */
  lemma SelectExportIgnoresCase(a: string, b: string)
    requires Lower(a) == Lower(b)
    ensures SelectExport(a) == SelectExport(b)
  {
  }

  /** `doc.export_to_<format>()`. */
  function Export(doc: Document, f: ExportFormat): Attempt<string> {
    match f
    case Markdown => doc.markdown
    case Html => doc.html
    case Json => doc.json
    case PlainText => doc.text
  }

  // ----------------------------------------------------------- convert limits

  /**
   * A limit field of the job input: not given, given as null, or given as a
   * number. A number counts as given (truthy) only when it is not zero.
   */
  datatype Limit = Unset | Null | Value(n: int)

  predicate Truthy(l: Limit) {
    l.Value? && l.n != 0
  }

  /** `input.get(key, default)`: an unset limit takes the default. */
  function WithDefault(l: Limit, default: int): Limit {
    if l.Unset? then Value(default) else l
  }

  /** 100 MiB, the default `max_file_size`. */
  const MaxFileSizeDefault: int := 100 * 1024 * 1024

  /** The keyword arguments passed to the converter. */
  datatype ConvertArg = MaxNumPages | MaxFileSize

  /**
   * `convert_kwargs`: `max_num_pages` present exactly when the page limit is
   * truthy, `max_file_size` exactly when the size limit is, each carrying the
   * given value.
   */
  function ConvertKwargs(maxPages: Limit, maxFileSize: Limit): (kw: map<ConvertArg, int>)
    ensures MaxNumPages in kw <==> Truthy(maxPages)
    ensures MaxNumPages in kw ==> kw[MaxNumPages] == maxPages.n
    ensures MaxFileSize in kw <==> Truthy(maxFileSize)
    ensures MaxFileSize in kw ==> kw[MaxFileSize] == maxFileSize.n
  {
    var pages := if Truthy(maxPages) then map[MaxNumPages := maxPages.n] else map[];
    if Truthy(maxFileSize) then pages[MaxFileSize := maxFileSize.n] else pages
  }

  /** Fills the `convert_kwargs` dictionary in place, one optional entry at a time. */
  method BuildConvertKwargs(maxPages: Limit, maxFileSize: Limit) returns (kw: map<ConvertArg, int>)
    ensures kw == ConvertKwargs(maxPages, maxFileSize)
  {
    kw := map[];
    if Truthy(maxPages) {
      kw := kw[MaxNumPages := maxPages.n];
    }
    if Truthy(maxFileSize) {
      kw := kw[MaxFileSize := maxFileSize.n];
    }
  }

  /** The single-document handler passes no page limit and a 100 MiB size limit. */
  lemma SingleDocumentLimits()
    ensures ConvertKwargs(Null, Value(MaxFileSizeDefault)) == map[MaxFileSize := 104857600]
  {
  }

  // -------------------------------------------------------------- statistics

  predicate IsFormula(item: DocItem) {
    item.itemLabel == Some("FORMULA")
  }

  /** The number of items labelled exactly "FORMULA". */
  function FormulaCount(items: seq<DocItem>): nat
    decreases |items|
  {
    if items == [] then 0
    else FormulaCount(items[..|items| - 1]) + (if IsFormula(items[|items| - 1]) then 1 else 0)
  }

  function FormulaPositions(items: seq<DocItem>): set<nat> {
    set k: nat | k < |items| && IsFormula(items[k])
  }

  /** The formula count is the number of positions holding a FORMULA-labelled item. */
  lemma {:induction false} FormulaCountIsPositions(items: seq<DocItem>)
    ensures FormulaCount(items) == |FormulaPositions(items)|
    ensures FormulaCount(items) <= |items|
    decreases |items|
  {
    if items != [] {
      var init := items[..|items| - 1];
      FormulaCountIsPositions(init);
      var extra: set<nat> := if IsFormula(items[|items| - 1]) then {|items| - 1} else {};
      assert FormulaPositions(items) == FormulaPositions(init) + extra by {
        forall k: nat | k < |init| ensures items[k] == init[k] {}
      }
      assert |items| - 1 !in FormulaPositions(init);
    }
  }

  /** `len(l) if hasattr(doc, l) else 0`. */
  function ListLength(l: Option<seq<DocItem>>): nat {
    match l
    case Some(items) => |items|
    case None => 0
  }

  /** `enrichment_stats`. */
  datatype EnrichmentStats = EnrichmentStats(codeBlocks: nat, formulas: nat, images: nat, tables: nat)

  /** The statistics a document should be reported with. */
  function Stats(doc: Document): EnrichmentStats {
    EnrichmentStats(ListLength(doc.code), FormulaCount(doc.texts), ListLength(doc.pictures),
                    ListLength(doc.tables))
  }

  /**
   * Fills `enrichment_stats` in place: counts the FORMULA-labelled texts in a
   * loop, then overwrites images, tables and code blocks with the list
   * lengths when the document has those lists.
   */
  method CollectStats(doc: Document) returns (stats: EnrichmentStats)
    ensures stats == Stats(doc)
  {
    stats := EnrichmentStats(0, 0, 0, 0);
    var i := 0;
    while i < |doc.texts|
      invariant 0 <= i <= |doc.texts|
      invariant stats == EnrichmentStats(0, FormulaCount(doc.texts[..i]), 0, 0)
    {
      assert doc.texts[..i + 1][..i] == doc.texts[..i];
      if doc.texts[i].itemLabel.Some? {
        if doc.texts[i].itemLabel.value == "FORMULA" {
          stats := stats.(formulas := stats.formulas + 1);
        }
      }
      i := i + 1;
    }
    assert doc.texts[..i] == doc.texts;
    if doc.pictures.Some? {
      stats := stats.(images := |doc.pictures.value|);
    }
    if doc.tables.Some? {
      stats := stats.(tables := |doc.tables.value|);
    }
    if doc.code.Some? {
      stats := stats.(codeBlocks := |doc.code.value|);
    }
  }
}
