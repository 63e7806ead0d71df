/**
 * The report analyzer view: the text and file name it holds, the local
 * analysis (the shared conflict matcher run synchronously), the export file
 * name and the severity badge colours.
 */
module ReportAnalyzerView {
  import opened Wrappers
  import opened Text
  import opened KpiData
  import opened ConflictMatcher

  /** The local analysis result: the matcher's output plus the report's name. */
  datatype AnalyzerResult = AnalyzerResult(misalignments: seq<Finding>, summary: string, fileName: string)

  const UnnamedReport: string := "Unnamed Report"

  /** `fileName || "Unnamed Report"`. */
  function ResultFileName(fileName: string): (r: string)
    ensures r != ""
    ensures fileName != "" ==> r == fileName
    ensures fileName == "" ==> r == UnnamedReport
  {
    if fileName != "" then fileName else UnnamedReport
  }

  /** `analysis-${analysisResult.fileName || "report"}.json`. */
  function ExportFileName(result: AnalyzerResult): (name: string)
    ensures IsPrefix("analysis-", name)
    ensures |name| > |"analysis-.json"| && name[|name| - 5..] == ".json"
    ensures name[9..|name| - 5] == (if result.fileName != "" then result.fileName else "report")
  {
    "analysis-" + (if result.fileName != "" then result.fileName else "report") + ".json"
  }

  class ReportAnalyzer {
    var reportText: string
    var fileName: string
    var isAnalyzing: bool
    var analysisResult: Option<AnalyzerResult>

    /** A stored result always carries a non-empty file name. */
    ghost predicate Valid()
      reads this
    {
      analysisResult.Some? ==> analysisResult.value.fileName != ""
    }

    constructor()
      ensures Valid()
      ensures reportText == "" && fileName == "" && !isAnalyzing && analysisResult == None
    {
      reportText, fileName, isAnalyzing, analysisResult := "", "", false, None;
    }

    /** The Analyze button is disabled while there is no text or an analysis runs. */
    predicate AnalyzeDisabled()
      reads this
    {
      reportText == "" || isAnalyzing
    }

    /** A file was read: take its content and its name, nothing else changes. */
    method HandleFileContent(content: string, name: string)
      requires Valid()
      modifies this
      ensures Valid()
      ensures reportText == content && fileName == name
      ensures isAnalyzing == old(isAnalyzing) && analysisResult == old(analysisResult)
    {
      reportText := content;
      fileName := name;
    }

    /** The text area changed. */
    method EditReportText(text: string)
      requires Valid()
      modifies this
      ensures Valid()
      ensures reportText == text
      ensures fileName == old(fileName) && isAnalyzing == old(isAnalyzing) && analysisResult == old(analysisResult)
    {
      reportText := text;
    }

    /**
     * With no text, nothing happens. Otherwise the result holds the same
     * findings and summary as the analysis endpoint gives for this text,
     * named after the uploaded file or "Unnamed Report", and the view is no
     * longer analyzing.
     */
    method AnalyzeReport()
      requires Valid()
      modifies this
      ensures Valid()
      ensures reportText == old(reportText) && fileName == old(fileName)
      ensures old(reportText) == "" ==>
        isAnalyzing == old(isAnalyzing) && analysisResult == old(analysisResult)
      ensures old(reportText) != "" ==>
        var a := Analyze(reportText, ConflictingMetrics);
        !isAnalyzing &&
        analysisResult == Some(AnalyzerResult(a.misalignments, a.summary, ResultFileName(fileName)))
    {
      if reportText == "" {
        return;
      }
      isAnalyzing := true;
      CatalogueHasTeams();
      var a := RunMatcher(reportText, ConflictingMetrics);
      analysisResult := Some(AnalyzerResult(a.misalignments, a.summary, ResultFileName(fileName)));
      isAnalyzing := false;
    }

    /**
     * The file name the Export Report button uses, if there is a result:
     * always "analysis-" + the result's file name + ".json"; the "report"
     * fallback is never taken.
     */
    method ExportName() returns (name: Option<string>)
      requires Valid()
      ensures analysisResult.None? ==> name == None
      ensures analysisResult.Some? ==>
        name == Some("analysis-" + analysisResult.value.fileName + ".json")
    {
      if analysisResult.Some? {
        name := Some(ExportFileName(analysisResult.value));
      } else {
        name := None;
      }
    }
  }

  // ---------------------------------------------------------------------
  // Severity badges

  const RedBadge: string := "bg-red-600 hover:bg-red-700"
  const YellowBadge: string := "bg-yellow-600 hover:bg-yellow-700"
  const BlueBadge: string := "bg-blue-600 hover:bg-blue-700"
  const GrayBadge: string := "bg-gray-600 hover:bg-gray-700"

  /** Badge class of a finding's (lower-case) severity. */
  function SeverityColor(severity: string): (c: string)
    ensures c != GrayBadge <==> severity in ["high", "medium", "low"]
  {
    match severity
    case "high" => RedBadge
    case "medium" => YellowBadge
    case "low" => BlueBadge
    case _ => GrayBadge
  }

  lemma LowerSeverity(s: string)
    requires IsSeverity(s)
    ensures Lower(s) in ["high", "medium", "low"]
  {
    if s == "High" {
      assert Lower(s) == "high";
    } else if s == "Medium" {
      assert Lower(s) == "medium";
    } else {
      assert Lower(s) == "low";
    }
  }

  /** Every finding the shipped catalogue can produce gets a coloured, never gray, badge. */
  lemma FindingBadgesColoured(reportText: string)
    ensures var f := Analyze(reportText, ConflictingMetrics).misalignments;
      forall j :: 0 <= j < |f| ==> SeverityColor(f[j].severity) != GrayBadge
  {
    CatalogueHasTeams();
    CatalogueSeverities();
    var f := Analyze(reportText, ConflictingMetrics).misalignments;
    FindingsFromCatalogue(reportText, ConflictingMetrics);
    forall j | 0 <= j < |f| ensures SeverityColor(f[j].severity) != GrayBadge {
      var i :| 0 <= i < |ConflictingMetrics| && BuiltFrom(f[j], ConflictingMetrics[i]);
      LowerSeverity(ConflictingMetrics[i].severity);
    }
  }
}
