/**
 * The capability-tier configurator: the tier read from the environment, the
 * PDF pipeline options built for each tier, the metadata table of which
 * enrichments each tier reports, and the all-on options of the batch
 * handler's converter.
 */
module Tiers {
  import opened Wrappers
  import opened Text

  /** One of the three device-capability tiers. */
  datatype Tier = Low | Medium | High

  /** The tier's name, as stored in `DEVICE_CAPABILITY` and reported in metadata. */
  function TierName(t: Tier): string {
    match t
    case Low => "low"
    case Medium => "medium"
    case High => "high"
  }

  /** `VALID_CAPABILITIES`. */
  function ValidCapabilities(): set<string> {
    {"low", "medium", "high"}
  }

  /**
   * `DEVICE_CAPABILITY`: the environment value (default "high"), lower-cased;
   * any value outside the three tier names falls back to "high".
   */
  function NormaliseTier(env: Option<string>): (t: Tier)
    ensures env.None? ==> t == High
    ensures env.Some? ==> (t == Low <==> Lower(env.value) == "low")
    ensures env.Some? ==> (t == Medium <==> Lower(env.value) == "medium")
    ensures env.Some? ==> (t == High <==> Lower(env.value) !in {"low", "medium"})
    ensures TierName(t) in ValidCapabilities()
  {
    var name := Lower(match env case Some(v) => v case None => "high");
    if name == "low" then Low
    else if name == "medium" then Medium
    else High
  }

  /** The tier's own name, in any upper/lower-case spelling, selects that tier. */
  lemma NormaliseTierName(t: Tier, env: string)
    requires Lower(env) == TierName(t)
    ensures NormaliseTier(Some(env)) == t
  {
  }

  /** `AUTO_DETECT_PLATFORMS`: true exactly when the environment value lower-cases to "true" (default "false"). */
  function AutoDetectPlatforms(env: Option<string>): (on: bool)
    ensures on <==> env.Some? && Lower(env.value) == "true"
  {
    Lower(match env case Some(v) => v case None => "false") == "true"
  }

  datatype TableMode = Fast | Accurate

  /** The OCR options object: left at the library's default, or an EasyOCR configuration. */
  datatype OcrOptions = LibraryOcrDefault | EasyOcr(forceFullPageOcr: bool, useGpu: bool)

  /** The picture-description model preset: the library's default, or SmolVLM. */
  datatype PicturePreset = LibraryPresetDefault | SmolVlm

  /** A snapshot of every `PdfPipelineOptions` field this code touches. */
  datatype PipelineSettings = PipelineSettings(
    doCodeEnrichment: bool,
    doFormulaEnrichment: bool,
    generatePictureImages: bool,
    imagesScale: real,
    doPictureClassification: bool,
    doPictureDescription: bool,
    pictureDescription: PicturePreset,
    doTableStructure: bool,
    doCellMatching: bool,
    tableMode: TableMode,
    doOcr: bool,
    ocr: OcrOptions)

  /**
   * The pipeline options object. Its nested `table_structure_options` is
   * flattened into the two fields `doCellMatching` and `tableMode`.
   */
  class PdfPipelineOptions {
    var doCodeEnrichment: bool
    var doFormulaEnrichment: bool
    var generatePictureImages: bool
    var imagesScale: real
    var doPictureClassification: bool
    var doPictureDescription: bool
    var pictureDescription: PicturePreset
    var doTableStructure: bool
    var doCellMatching: bool
    var tableMode: TableMode
    var doOcr: bool
    var ocr: OcrOptions

    /** The current values of all fields. */
    function Settings(): PipelineSettings
      reads this
    {
      PipelineSettings(doCodeEnrichment, doFormulaEnrichment, generatePictureImages, imagesScale,
                       doPictureClassification, doPictureDescription, pictureDescription,
                       doTableStructure, doCellMatching, tableMode, doOcr, ocr)
    }

    /** `PdfPipelineOptions()`: every field starts at the library's default. */
    constructor (defaults: PipelineSettings)
      ensures Settings() == defaults
    {
      doCodeEnrichment := defaults.doCodeEnrichment;
      doFormulaEnrichment := defaults.doFormulaEnrichment;
      generatePictureImages := defaults.generatePictureImages;
      imagesScale := defaults.imagesScale;
      doPictureClassification := defaults.doPictureClassification;
      doPictureDescription := defaults.doPictureDescription;
      pictureDescription := defaults.pictureDescription;
      doTableStructure := defaults.doTableStructure;
      doCellMatching := defaults.doCellMatching;
      tableMode := defaults.tableMode;
      doOcr := defaults.doOcr;
      ocr := defaults.ocr;
    }
  }

  /** The seven pipeline switches the tiers turn on and off. */
  datatype Switch =
    | CodeEnrichment
    | FormulaEnrichment
    | PictureImages
    | PictureClassification
    | PictureDescription
    | TableStructure
    | Ocr

  function IsOn(s: PipelineSettings, sw: Switch): bool {
    match sw
    case CodeEnrichment => s.doCodeEnrichment
    case FormulaEnrichment => s.doFormulaEnrichment
    case PictureImages => s.generatePictureImages
    case PictureClassification => s.doPictureClassification
    case PictureDescription => s.doPictureDescription
    case TableStructure => s.doTableStructure
    case Ocr => s.doOcr
  }

  /** The options `_build_pdf_options` produces for a tier, starting from the library defaults. */
  function TierSettings(t: Tier, defaults: PipelineSettings): PipelineSettings {
    match t
    case Low =>
      defaults.(doCodeEnrichment := false, doFormulaEnrichment := false,
                generatePictureImages := false, doPictureClassification := false,
                doPictureDescription := false, doTableStructure := false, doOcr := false)
    case Medium =>
      defaults.(doCodeEnrichment := true, doFormulaEnrichment := true,
                generatePictureImages := false, doPictureClassification := false,
                doPictureDescription := false, doTableStructure := true, doOcr := true,
                ocr := EasyOcr(false, false))
    case High =>
      defaults.(doCodeEnrichment := true, doFormulaEnrichment := true,
                generatePictureImages := true, imagesScale := 2.0,
                doPictureClassification := true, doPictureDescription := true,
                pictureDescription := SmolVlm, doTableStructure := true,
                doCellMatching := true, tableMode := Accurate, doOcr := true,
                ocr := EasyOcr(true, true))
  }

  /** `_build_pdf_options`: a fresh options object, its fields assigned branch by branch. */
  method BuildPdfOptions(t: Tier, defaults: PipelineSettings) returns (o: PdfPipelineOptions)
    ensures fresh(o)
    ensures o.Settings() == TierSettings(t, defaults)
  {
    o := new PdfPipelineOptions(defaults);
    if t == Low {
      o.doCodeEnrichment := false;
      o.doFormulaEnrichment := false;
      o.generatePictureImages := false;
      o.doPictureClassification := false;
      o.doPictureDescription := false;
      o.doTableStructure := false;
      o.doOcr := false;
      assert o.Settings() == TierSettings(Low, defaults);
    } else if t == Medium {
      o.doCodeEnrichment := true;
      o.doFormulaEnrichment := true;
      o.generatePictureImages := false;
      o.doPictureClassification := false;
      o.doPictureDescription := false;
      o.doTableStructure := true;
      o.doOcr := true;
      o.ocr := EasyOcr(false, false);
      assert o.Settings() == TierSettings(Medium, defaults);
    } else {
      o.doCodeEnrichment := true;
      o.doFormulaEnrichment := true;
      o.generatePictureImages := true;
      o.imagesScale := 2.0;
      o.doPictureClassification := true;
      o.doPictureDescription := true;
      o.pictureDescription := SmolVlm;
      o.doTableStructure := true;
      o.doCellMatching := true;
      o.tableMode := Accurate;
      o.doOcr := true;
      o.ocr := EasyOcr(true, true);
      assert o.Settings() == TierSettings(High, defaults);
    }
  }

  /** Tier "low" switches off all seven switches and leaves every other option at its default. */
  lemma LowSwitchesAllOff(defaults: PipelineSettings)
    ensures forall sw :: !IsOn(TierSettings(Low, defaults), sw)
    ensures var s := TierSettings(Low, defaults);
            s.imagesScale == defaults.imagesScale && s.pictureDescription == defaults.pictureDescription &&
            s.doCellMatching == defaults.doCellMatching && s.tableMode == defaults.tableMode &&
            s.ocr == defaults.ocr
  {
  }

  /**
   * Tier "medium" switches on code, formula, table structure and OCR, switches
   * off the three picture switches, and runs EasyOCR neither full-page nor on the GPU.
   */
  lemma MediumSwitches(defaults: PipelineSettings)
    ensures forall sw :: IsOn(TierSettings(Medium, defaults), sw) <==>
                         sw in {CodeEnrichment, FormulaEnrichment, TableStructure, Ocr}
    ensures TierSettings(Medium, defaults).ocr == EasyOcr(false, false)
    ensures var s := TierSettings(Medium, defaults);
            s.imagesScale == defaults.imagesScale && s.pictureDescription == defaults.pictureDescription &&
            s.doCellMatching == defaults.doCellMatching && s.tableMode == defaults.tableMode
  {
  }

  /**
   * Tier "high" switches everything on, renders pictures at scale 2, describes
   * them with SmolVLM, matches table cells in ACCURATE mode and runs full-page
   * EasyOCR on the GPU; the result does not depend on the library defaults.
   */
  lemma HighSwitchesAllOn(defaults: PipelineSettings, otherDefaults: PipelineSettings)
    ensures forall sw :: IsOn(TierSettings(High, defaults), sw)
    ensures var s := TierSettings(High, defaults);
            s.imagesScale == 2.0 && s.pictureDescription == SmolVlm &&
            s.doCellMatching && s.tableMode == Accurate && s.ocr == EasyOcr(true, true)
    ensures TierSettings(High, defaults) == TierSettings(High, otherDefaults)
  {
  }

  /** A switch on in a lower tier is on in every higher tier. */
  lemma TiersAreMonotone(defaults: PipelineSettings, sw: Switch)
    ensures IsOn(TierSettings(Low, defaults), sw) ==> IsOn(TierSettings(Medium, defaults), sw)
    ensures IsOn(TierSettings(Medium, defaults), sw) ==> IsOn(TierSettings(High, defaults), sw)
  {
  }

  /** The six keys of every `enrichments_applied` record. */
  function EnrichmentKeys(): set<string> {
    {"code_enrichment", "formula_enrichment", "picture_classification",
     "picture_description", "table_structure", "ocr"}
  }

  /** The pipeline switch each metadata key reports on. */
  function SwitchOf(key: string): Switch
    requires key in EnrichmentKeys()
  {
    if key == "code_enrichment" then CodeEnrichment
    else if key == "formula_enrichment" then FormulaEnrichment
    else if key == "picture_classification" then PictureClassification
    else if key == "picture_description" then PictureDescription
    else if key == "table_structure" then TableStructure
    else Ocr
  }

  function Flags(code: bool, formula: bool, classification: bool, description: bool,
                 table: bool, ocr: bool): map<string, bool>
  {
    map["code_enrichment" := code, "formula_enrichment" := formula,
        "picture_classification" := classification, "picture_description" := description,
        "table_structure" := table, "ocr" := ocr]
  }

  /** `enrichment_flags`: the enrichments each tier reports as applied, keyed by tier name. */
  function EnrichmentTable(): map<string, map<string, bool>> {
    map["low" := Flags(false, false, false, false, false, false),
        "medium" := Flags(true, true, false, false, true, true),
        "high" := Flags(true, true, true, true, true, true)]
  }

  /**
   * The metadata table agrees with the options: for every tier, looking up
   * its name never fails, the row has exactly the six keys, and each key
   * reports exactly the switch `_build_pdf_options` sets for that tier.
   */
  lemma EnrichmentTableAgrees(t: Tier, defaults: PipelineSettings)
    ensures TierName(t) in EnrichmentTable()
    ensures EnrichmentTable()[TierName(t)].Keys == EnrichmentKeys()
    ensures forall key :: key in EnrichmentKeys() ==>
              EnrichmentTable()[TierName(t)][key] == IsOn(TierSettings(t, defaults), SwitchOf(key))
  {
  }

  /** The only switch the metadata does not report is picture-image generation. */
  lemma UnreportedSwitch(sw: Switch)
    ensures (exists key :: key in EnrichmentKeys() && SwitchOf(key) == sw) <==> sw != PictureImages
  {
    if sw == CodeEnrichment { assert SwitchOf("code_enrichment") == sw; }
    else if sw == FormulaEnrichment { assert SwitchOf("formula_enrichment") == sw; }
    else if sw == PictureClassification { assert SwitchOf("picture_classification") == sw; }
    else if sw == PictureDescription { assert SwitchOf("picture_description") == sw; }
    else if sw == TableStructure { assert SwitchOf("table_structure") == sw; }
    else if sw == Ocr { assert SwitchOf("ocr") == sw; }
  }

  /**
   * `create_enhanced_converter`'s pipeline options: a fresh options object
   * with every enrichment switched on; the same settings as tier "high".
   */
  method CreateEnhancedOptions(defaults: PipelineSettings) returns (o: PdfPipelineOptions)
    ensures fresh(o)
    ensures o.Settings() == TierSettings(High, defaults)
  {
    o := new PdfPipelineOptions(defaults);
    o.doCodeEnrichment := true;
    o.doFormulaEnrichment := true;
    o.generatePictureImages := true;
    o.imagesScale := 2.0;
    o.doPictureClassification := true;
    o.doPictureDescription := true;
    o.pictureDescription := SmolVlm;
    o.doTableStructure := true;
    o.doCellMatching := true;
    o.tableMode := Accurate;
    o.doOcr := true;
    o.ocr := EasyOcr(true, true);
  }

  /** The `enrichments_applied` record every success entry of the batch handler carries. */
  function EnhancedFlags(): map<string, bool> {
    Flags(true, true, true, true, true, true)
  }

  /** The batch handler's all-true record reports exactly the switches of its enhanced converter. */
  lemma EnhancedFlagsAgree(defaults: PipelineSettings)
    ensures EnhancedFlags().Keys == EnrichmentKeys()
    ensures forall key :: key in EnrichmentKeys() ==>
              EnhancedFlags()[key] == IsOn(TierSettings(High, defaults), SwitchOf(key))
    ensures EnhancedFlags() == EnrichmentTable()["high"]
  {
  }
}
