/**
 * The conflict matcher shared by the analysis endpoint and the report
 * analyzer: scan the conflicting-metric catalogue in order, report each
 * metric whose lower-cased name occurs in the lower-cased report text, fall
 * back to the first three metrics when nothing occurs, and summarise the
 * number of findings.
 */
module ConflictMatcher {
  import opened Wrappers
  import opened Text
  import opened KpiData
  import opened Filtering

  /** One suspected terminology misalignment. */
  datatype Finding = Finding(
    term: string,
    context: string,
    department: string,
    issue: string,
    severity: string)

  /** What the matcher returns: the findings and a one-sentence summary. */
  datatype Analysis = Analysis(misalignments: seq<Finding>, summary: string)

  // ---------------------------------------------------------------------
  // Templates

  /** Context of a finding whose name occurs in the text. */
  function ContainsContext(name: string): string {
    "Contains reference to \"" + name + "\""
  }

  /** Context of a fallback finding, which the text need not mention. */
  function PotentialContext(name: string): string {
    "Potential reference to \"" + name + "\" concepts"
  }

  const IssuePrefix: string := "This metric has "
  const IssueMiddle: string := " different definitions across "

  /** The issue sentence: the number of definitions and the joined teams. */
  function IssueText(m: ConflictingMetric): string {
    IssuePrefix + NatToString(|m.definitions|) + IssueMiddle + Join(m.teams, ", ")
  }

  const SummaryPrefix: string := "This report contains "
  // Written in two parts so that its leading space is visible to the verifier.
  const SummarySuffix: string :=
    " " + "potential terminology misalignments that could lead to miscommunication across departments."

  /** The summary sentence for `k` findings. */
  function SummaryText(k: nat): string {
    SummaryPrefix + NatToString(k) + SummarySuffix
  }

  /** The finding built from a metric under a given context. */
  function MakeFinding(m: ConflictingMetric, context: string): (f: Finding)
    requires |m.teams| > 0
  {
    Finding(m.name, context, m.teams[0], IssueText(m), Lower(m.severity))
  }

  // ---------------------------------------------------------------------
  // Specification of the matcher

  /** The metric's lower-cased name occurs in the (lower-cased) text. */
  predicate Mentions(lowText: string, m: ConflictingMetric) {
    Contains(lowText, Lower(m.name))
  }

  function MentionedIn(lowText: string): ConflictingMetric -> bool {
    m => Mentions(lowText, m)
  }

  /** The first pass: one finding per mentioned metric, in catalogue order. */
  function MatchedFindings(lowText: string, ms: seq<ConflictingMetric>): seq<Finding>
    requires HasTeams(ms)
  {
    if |ms| == 0 then []
    else
      var m := ms[|ms| - 1];
      MatchedFindings(lowText, ms[..|ms| - 1]) +
      (if Mentions(lowText, m) then [MakeFinding(m, ContainsContext(m.name))] else [])
  }

  /** One speculative finding per metric of `sample`. */
  function SampleFindings(sample: seq<ConflictingMetric>): seq<Finding>
    requires HasTeams(sample)
  {
    seq(|sample|, j requires 0 <= j < |sample| => MakeFinding(sample[j], PotentialContext(sample[j].name)))
  }

  function Min(a: nat, b: nat): nat {
    if a <= b then a else b
  }

  /** The fallback: the first three metrics (fewer if there are fewer). */
  function FallbackFindings(ms: seq<ConflictingMetric>): seq<Finding>
    requires HasTeams(ms)
  {
    SampleFindings(ms[..Min(3, |ms|)])
  }

  function Findings(reportText: string, ms: seq<ConflictingMetric>): seq<Finding>
    requires HasTeams(ms)
  {
    var matched := MatchedFindings(Lower(reportText), ms);
    if |matched| == 0 then FallbackFindings(ms) else matched
  }

  function Analyze(reportText: string, ms: seq<ConflictingMetric>): (a: Analysis)
    requires HasTeams(ms)
    ensures |a.misalignments| <= |ms|
    ensures |ms| > 0 ==> |a.misalignments| > 0
  {
    FindingsBounds(reportText, ms);
    var f := Findings(reportText, ms);
    Analysis(f, SummaryText(|f|))
  }

  // ---------------------------------------------------------------------
  // The matcher as the source runs it: two `forEach` loops that push

  method RunMatcher(reportText: string, catalogue: seq<ConflictingMetric>) returns (a: Analysis)
    requires HasTeams(catalogue)
    ensures a == Analyze(reportText, catalogue)
  {
    var lowText := Lower(reportText);
    var misalignments: seq<Finding> := [];
    var i := 0;
    while i < |catalogue|
      invariant 0 <= i <= |catalogue|
      invariant misalignments == MatchedFindings(lowText, catalogue[..i])
    {
      var metric := catalogue[i];
      assert catalogue[..i + 1][..i] == catalogue[..i];
      if Contains(lowText, Lower(metric.name)) {
        misalignments := misalignments + [MakeFinding(metric, ContainsContext(metric.name))];
      }
      i := i + 1;
    }
    assert catalogue[..|catalogue|] == catalogue;
    if |misalignments| == 0 {
      var sample := catalogue[..Min(3, |catalogue|)];
      var j := 0;
      while j < |sample|
        invariant 0 <= j <= |sample|
        invariant misalignments == SampleFindings(sample[..j])
      {
        var metric := sample[j];
        misalignments := misalignments + [MakeFinding(metric, PotentialContext(metric.name))];
        j := j + 1;
      }
      assert sample[..|sample|] == sample;
    }
    a := Analysis(misalignments, SummaryText(|misalignments|));
  }

  // ---------------------------------------------------------------------
  // Properties

  /**
   * The first pass reports exactly the mentioned metrics, each once, in
   * catalogue order: finding j is built from the metric at position idx[j],
   * the positions ascend, and a position is among them iff its metric's
   * name occurs in the text.
   */
  lemma {:induction false} MatchedSelects(lowText: string, ms: seq<ConflictingMetric>)
    requires HasTeams(ms)
    ensures var f, idx := MatchedFindings(lowText, ms), KeptIndices(ms, MentionedIn(lowText));
      |f| == |idx| &&
      (forall j :: 0 <= j < |idx| ==>
         idx[j] < |ms| && f[j] == MakeFinding(ms[idx[j]], ContainsContext(ms[idx[j]].name))) &&
      (forall j, k :: 0 <= j < k < |idx| ==> idx[j] < idx[k]) &&
      (forall i :: 0 <= i < |ms| ==> (Mentions(lowText, ms[i]) <==> i in idx))
  {
    var p := MentionedIn(lowText);
    KeepSelects(ms, p);
    if |ms| > 0 {
      var n := |ms| - 1;
      var init := ms[..n];
      MatchedSelects(lowText, init);
      var f0, idx0 := MatchedFindings(lowText, init), KeptIndices(init, p);
      var f, idx := MatchedFindings(lowText, ms), KeptIndices(ms, p);
      forall j | 0 <= j < |idx0|
        ensures idx0[j] < n && f0[j] == MakeFinding(ms[idx0[j]], ContainsContext(ms[idx0[j]].name))
      {
        assert init[idx0[j]] == ms[idx0[j]];
      }
      if Mentions(lowText, ms[n]) {
        assert f == f0 + [MakeFinding(ms[n], ContainsContext(ms[n].name))];
        assert idx == idx0 + [n];
      } else {
        assert f == f0 && idx == idx0;
      }
    }
  }

  /** The first pass finds nothing exactly when no metric is mentioned. */
  lemma MatchedEmpty(lowText: string, ms: seq<ConflictingMetric>)
    requires HasTeams(ms)
    ensures MatchedFindings(lowText, ms) == [] <==> forall i :: 0 <= i < |ms| ==> !Mentions(lowText, ms[i])
  {
    MatchedSelects(lowText, ms);
    var idx := KeptIndices(ms, MentionedIn(lowText));
    if MatchedFindings(lowText, ms) != [] {
      assert idx[0] < |ms|;
      assert Mentions(lowText, ms[idx[0]]);
    }
  }

  /**
   * A metric gives a "Contains reference to" finding iff its lower-cased
   * name occurs in the lower-cased text; such findings keep catalogue order.
   */
  lemma FindingsWhenMentioned(reportText: string, ms: seq<ConflictingMetric>)
    requires HasTeams(ms)
    requires exists i :: 0 <= i < |ms| && Mentions(Lower(reportText), ms[i])
    ensures var f, idx := Findings(reportText, ms), KeptIndices(ms, MentionedIn(Lower(reportText)));
      |f| == |idx| &&
      (forall j :: 0 <= j < |idx| ==>
         idx[j] < |ms| && f[j] == MakeFinding(ms[idx[j]], ContainsContext(ms[idx[j]].name))) &&
      (forall j, k :: 0 <= j < k < |idx| ==> idx[j] < idx[k]) &&
      (forall i :: 0 <= i < |ms| ==> (Mentions(Lower(reportText), ms[i]) <==> i in idx))
  {
    MatchedEmpty(Lower(reportText), ms);
    MatchedSelects(Lower(reportText), ms);
  }

  /**
   * When no name occurs, the findings are the first min(3, n) metrics in
   * order, each under the "Potential reference to" template.
   */
  lemma FindingsFallback(reportText: string, ms: seq<ConflictingMetric>)
    requires HasTeams(ms)
    requires forall i :: 0 <= i < |ms| ==> !Mentions(Lower(reportText), ms[i])
    ensures var f := Findings(reportText, ms);
      |f| == Min(3, |ms|) &&
      forall j :: 0 <= j < |f| ==> f[j] == MakeFinding(ms[j], PotentialContext(ms[j].name))
  {
    MatchedEmpty(Lower(reportText), ms);
  }

  /** A non-empty catalogue always yields findings, never more than it has metrics. */
  lemma FindingsBounds(reportText: string, ms: seq<ConflictingMetric>)
    requires HasTeams(ms)
    ensures |ms| > 0 ==> |Findings(reportText, ms)| > 0
    ensures |Findings(reportText, ms)| <= |ms|
  {
    MatchedSelects(Lower(reportText), ms);
    var idx := KeptIndices(ms, MentionedIn(Lower(reportText)));
    DistinctBelow(idx, |ms|);
  }

  /** Strictly ascending positions below n number at most n. */
  lemma {:induction false} DistinctBelow(idx: seq<nat>, n: nat)
    requires forall j :: 0 <= j < |idx| ==> idx[j] < n
    requires forall j, k :: 0 <= j < k < |idx| ==> idx[j] < idx[k]
    ensures |idx| <= n
  {
    if |idx| > 0 {
      var last := idx[|idx| - 1];
      DistinctBelow(idx[..|idx| - 1], last);
    }
  }

  /** The finding carries the metric's term, first team, issue sentence and lower-cased severity. */
  predicate BuiltFrom(f: Finding, m: ConflictingMetric) {
    |m.teams| > 0 && f.term == m.name && f.department == m.teams[0] &&
    f.issue == IssueText(m) && f.severity == Lower(m.severity)
  }

  /**
   * Every finding, matched or fallback, is built from some catalogue metric:
   * its term, first team, issue sentence and lower-cased severity.
   */
  lemma FindingsFromCatalogue(reportText: string, ms: seq<ConflictingMetric>)
    requires HasTeams(ms)
    ensures var f := Findings(reportText, ms);
      forall j :: 0 <= j < |f| ==> exists i :: 0 <= i < |ms| && BuiltFrom(f[j], ms[i])
  {
    var low := Lower(reportText);
    var f := Findings(reportText, ms);
    MatchedSelects(low, ms);
    MatchedEmpty(low, ms);
    var idx := KeptIndices(ms, MentionedIn(low));
    forall j | 0 <= j < |f| ensures exists i :: 0 <= i < |ms| && BuiltFrom(f[j], ms[i]) {
      if MatchedFindings(low, ms) == [] {
        assert f[j] == MakeFinding(ms[j], PotentialContext(ms[j].name));
        assert BuiltFrom(f[j], ms[j]);
      } else {
        assert f[j] == MakeFinding(ms[idx[j]], ContainsContext(ms[idx[j]].name));
        assert BuiltFrom(f[j], ms[idx[j]]);
      }
    }
  }

  /** The two context templates never coincide. */
  lemma ContextsDistinct(a: string, b: string)
    ensures ContainsContext(a) != PotentialContext(b)
  {
    assert ContainsContext(a)[0] == 'C';
    assert PotentialContext(b)[0] == 'P';
  }

  // ---------------------------------------------------------------------
  // Reading the numbers back out of the sentences

  /** Length of the run of decimal digits at the front of `s`. */
  function DigitRun(s: string): (k: nat)
    ensures k <= |s| && IsDigits(s[..k])
    ensures k < |s| ==> !('0' <= s[k] <= '9')
  {
    if |s| == 0 || !('0' <= s[0] <= '9') then 0 else 1 + DigitRun(s[1..])
  }

  lemma {:induction false} DigitRunOf(d: string, t: string)
    requires IsDigits(d)
    requires |t| > 0 && !('0' <= t[0] <= '9')
    ensures DigitRun(d + t) == |d|
  {
    if |d| > 0 {
      assert (d + t)[1..] == d[1..] + t;
      DigitRunOf(d[1..], t);
    }
  }

  /** The count a summary sentence states, if it has the summary's shape. */
  function SummaryCount(s: string): Option<nat> {
    if !IsPrefix(SummaryPrefix, s) then None
    else
      var rest := s[|SummaryPrefix|..];
      var k := DigitRun(rest);
      if 0 < k && rest[k..] == SummarySuffix then Some(ParseNat(rest[..k])) else None
  }

  /** The summary sentence for `k` findings reads back as `k`. */
  lemma SummaryCountOf(k: nat)
    ensures SummaryCount(SummaryText(k)) == Some(k)
  {
    var d := NatToString(k);
    var s := SummaryText(k);
    SummaryTextParts(k);
    var rest := s[|SummaryPrefix|..];
    DigitRunOf(d, SummarySuffix);
    assert rest[..|d|] == d;
    ParseNatToString(k);
  }

  lemma SummaryTextParts(k: nat)
    ensures IsPrefix(SummaryPrefix, SummaryText(k))
    ensures SummaryText(k)[|SummaryPrefix|..] == NatToString(k) + SummarySuffix
    ensures |SummarySuffix| > 0 && SummarySuffix[0] == ' '
  {
    var s := SummaryText(k);
    assert s[..|SummaryPrefix|] == SummaryPrefix;
  }

  /** The summary states the number of findings, and it can be read back. */
  lemma SummaryStatesCount(reportText: string, ms: seq<ConflictingMetric>)
    requires HasTeams(ms)
    ensures var a := Analyze(reportText, ms);
      SummaryCount(a.summary) == Some(|a.misalignments|)
  {
    SummaryCountOf(|Findings(reportText, ms)|);
  }

  /** The definition count and team list an issue sentence states. */
  function IssueParts(s: string): Option<(nat, string)> {
    if !IsPrefix(IssuePrefix, s) then None
    else
      var rest := s[|IssuePrefix|..];
      var k := DigitRun(rest);
      if 0 < k && IsPrefix(IssueMiddle, rest[k..])
      then Some((ParseNat(rest[..k]), rest[k + |IssueMiddle|..]))
      else None
  }

  /** Every finding's issue states its metric's definition count and joined teams. */
  lemma IssueStatesDefinitions(m: ConflictingMetric)
    ensures IssueParts(IssueText(m)) == Some((|m.definitions|, Join(m.teams, ", ")))
  {
    var n := |m.definitions|;
    var d := NatToString(n);
    var tail := IssueMiddle + Join(m.teams, ", ");
    var s := IssueText(m);
    assert s == IssuePrefix + (d + tail);
    assert s[..|IssuePrefix|] == IssuePrefix;
    var rest := s[|IssuePrefix|..];
    assert rest == d + tail;
    DigitRunOf(d, tail);
    assert rest[..|d|] == d;
    assert rest[|d|..] == tail;
    assert tail[..|IssueMiddle|] == IssueMiddle;
    assert rest[|d| + |IssueMiddle|..] == Join(m.teams, ", ");
    ParseNatToString(n);
  }
}
