/**
 * The `POST /api/analyze-report` handler: reject a missing or empty
 * `reportText` with 400, run the conflict matcher over the catalogue
 * otherwise, and answer 500 when the body cannot be read.
 */
module AnalyzeReportRoute {
  import opened Wrappers
  import opened Text
  import opened KpiData
  import opened ConflictMatcher
  import opened Filtering

  /** The request body: unreadable, or a JSON object whose `reportText` may be absent. */
  datatype RequestBody = Malformed | Json(reportText: Option<string>)

  datatype ResponseBody = ErrorBody(error: string) | AnalysisBody(analysis: Analysis)

  datatype Response = Response(status: nat, body: ResponseBody)

  /** `!reportText`: absent or empty. */
  predicate MissingText(t: Option<string>) {
    t.None? || t.value == ""
  }

  method Post(req: RequestBody) returns (resp: Response)
    ensures req.Malformed? ==> resp == Response(500, ErrorBody("Failed to analyze report"))
    ensures req.Json? && MissingText(req.reportText) ==>
      resp == Response(400, ErrorBody("Report text is required"))
    ensures req.Json? && !MissingText(req.reportText) ==>
      resp == Response(200, AnalysisBody(Analyze(req.reportText.value, ConflictingMetrics)))
  {
    match req {
      case Malformed =>
        resp := Response(500, ErrorBody("Failed to analyze report"));
      case Json(reportText) =>
        if MissingText(reportText) {
          return Response(400, ErrorBody("Report text is required"));
        }
        CatalogueHasTeams();
        var analysis := RunMatcher(reportText.value, ConflictingMetrics);
        resp := Response(200, AnalysisBody(analysis));
    }
  }

  // ---------------------------------------------------------------------
  // The matcher over the shipped catalogue

  /** No metric name of the shipped catalogue is shorter than ten characters. */
  lemma ShortTextMentionsNothing(reportText: string)
    requires |reportText| < 10
    ensures forall i :: 0 <= i < |ConflictingMetrics| ==> !Mentions(Lower(reportText), ConflictingMetrics[i])
  {
    forall i | 0 <= i < |ConflictingMetrics| ensures !Mentions(Lower(reportText), ConflictingMetrics[i]) {
      assert |ConflictingMetrics[i].name| >= 10;
      ContainsLonger(Lower(reportText), Lower(ConflictingMetrics[i].name));
    }
  }

  /**
   * Over the shipped catalogue a text shorter than every metric name falls
   * back to exactly Conversion Rate, Active User and Churn Rate, and the
   * summary counts three.
   */
  lemma ShortTextFallsBack(reportText: string)
    requires |reportText| < 10
    ensures var a := Analyze(reportText, ConflictingMetrics);
      |a.misalignments| == 3 &&
      a.misalignments[0] == MakeFinding(ConflictingMetrics[0], PotentialContext("Conversion Rate")) &&
      a.misalignments[1] == MakeFinding(ConflictingMetrics[1], PotentialContext("Active User")) &&
      a.misalignments[2] == MakeFinding(ConflictingMetrics[2], PotentialContext("Churn Rate")) &&
      a.summary == SummaryPrefix + "3" + SummarySuffix
  {
    CatalogueHasTeams();
    ShortTextMentionsNothing(reportText);
    FindingsFallback(reportText, ConflictingMetrics);
    assert NatToString(3) == "3";
  }

  /**
   * Names match inside longer words: "unqualified leads" yields a
   * "Contains reference to" finding for Qualified Lead.
   */
  lemma NoWordBoundaries()
    ensures MakeFinding(ConflictingMetrics[3], ContainsContext("Qualified Lead")) in
      Analyze("Our unqualified leads grew", ConflictingMetrics).misalignments
  {
    CatalogueHasTeams();
    var text := "Our unqualified leads grew";
    var low := Lower(text);
    UnqualifiedMentionsQualifiedLead();
    FindingsWhenMentioned(text, ConflictingMetrics);
    var idx := KeptIndices(ConflictingMetrics, MentionedIn(low));
    assert 3 in idx;
    var j :| 0 <= j < |idx| && idx[j] == 3;
    assert Findings(text, ConflictingMetrics)[j] == MakeFinding(ConflictingMetrics[3], ContainsContext("Qualified Lead"));
  }

  /** "qualified lead" occurs inside the lower-cased "unqualified leads". */
  lemma UnqualifiedMentionsQualifiedLead()
    ensures Mentions(Lower("Our unqualified leads grew"), ConflictingMetrics[3])
  {
    QualifiedLeadName();
    LowerMentions();
  }

  lemma QualifiedLeadName()
    ensures ConflictingMetrics[3].name == "Qualified Lead"
  {
  }

  lemma LowerMentions()
    ensures Contains(Lower("Our unqualified leads grew"), Lower("Qualified Lead"))
  {
    LowerText();
    LowerName();
    var low := "our unqualified leads grew";
    assert low[6..][..14] == "qualified lead";
    assert IsPrefix("qualified lead", low[6..]);
  }

  lemma LowerText()
    ensures Lower("Our unqualified leads grew") == "our unqualified leads grew"
  {
  }

  lemma LowerName()
    ensures Lower("Qualified Lead") == "qualified lead"
  {
  }
}
