/**
 * The conflicting-metrics view: a case-insensitive search over a metric's
 * name, teams and definition texts, ANDed with an exact severity filter;
 * the view state that re-applies both whenever either input changes; and
 * the badge colour lookups.
 */
module MetricConflictsView {
  import opened Wrappers
  import opened Text
  import opened KpiData
  import opened Filtering

  // ---------------------------------------------------------------------
  // The two filters

  /** `term` (already lower-cased) occurs in the name, some team or some definition text. */
  predicate MatchesSearch(m: ConflictingMetric, term: string) {
    Contains(Lower(m.name), term) ||
    (exists k :: 0 <= k < |m.teams| && Contains(Lower(m.teams[k]), term)) ||
    (exists k :: 0 <= k < |m.definitions| && Contains(Lower(m.definitions[k].definition), term))
  }

  function SearchPredicate(term: string): ConflictingMetric -> bool {
    m => MatchesSearch(m, term)
  }

  function SeverityPredicate(severity: string): ConflictingMetric -> bool {
    (m: ConflictingMetric) => m.severity == severity
  }

  /** The effect's result: the search filter when there is a term, then the severity filter unless "all". */
  function FilterMetrics(catalogue: seq<ConflictingMetric>, searchTerm: string, severityFilter: string): (r: seq<ConflictingMetric>)
    ensures |r| <= |catalogue|
    ensures searchTerm == "" && severityFilter == "all" ==> r == catalogue
  {
    var afterSearch := if searchTerm != "" then Keep(catalogue, SearchPredicate(Lower(searchTerm))) else catalogue;
    if severityFilter != "all" then Keep(afterSearch, SeverityPredicate(severityFilter)) else afterSearch
  }

  /** The single condition a metric must meet to be listed. */
  predicate Passes(m: ConflictingMetric, searchTerm: string, severityFilter: string) {
    (searchTerm == "" || MatchesSearch(m, Lower(searchTerm))) &&
    (severityFilter == "all" || m.severity == severityFilter)
  }

  function PassesPredicate(searchTerm: string, severityFilter: string): ConflictingMetric -> bool {
    m => Passes(m, searchTerm, severityFilter)
  }

  /** The two successive filters are one filter by the conjunction of both conditions. */
  lemma FilterIsOneKeep(catalogue: seq<ConflictingMetric>, searchTerm: string, severityFilter: string)
    ensures FilterMetrics(catalogue, searchTerm, severityFilter) ==
      Keep(catalogue, PassesPredicate(searchTerm, severityFilter))
  {
    var P := PassesPredicate(searchTerm, severityFilter);
    var S := SearchPredicate(Lower(searchTerm));
    var V := SeverityPredicate(severityFilter);
    if searchTerm != "" && severityFilter != "all" {
      KeepKeep(catalogue, S, V, P);
    } else if searchTerm != "" {
      KeepKeep(catalogue, S, x => true, P);
      KeepAll(Keep(catalogue, S), x => true);
    } else if severityFilter != "all" {
      KeepKeep(catalogue, x => true, V, P);
      KeepAll(catalogue, x => true);
    } else {
      KeepAll(catalogue, P);
    }
  }

  /**
   * The listed metrics are an order-preserving selection of the catalogue:
   * exactly the metrics that pass, each once, in catalogue order.
   */
  lemma FilterSelects(catalogue: seq<ConflictingMetric>, searchTerm: string, severityFilter: string)
    ensures SelectedBy(FilterMetrics(catalogue, searchTerm, severityFilter), catalogue,
      PassesPredicate(searchTerm, severityFilter), KeptIndices(catalogue, PassesPredicate(searchTerm, severityFilter)))
  {
    FilterIsOneKeep(catalogue, searchTerm, severityFilter);
    KeepSelects(catalogue, PassesPredicate(searchTerm, severityFilter));
  }

  /** A metric is listed iff it passes both the search and the severity filter. */
  lemma FilterMember(catalogue: seq<ConflictingMetric>, searchTerm: string, severityFilter: string, m: ConflictingMetric)
    ensures m in FilterMetrics(catalogue, searchTerm, severityFilter) <==>
      m in catalogue &&
      (searchTerm == "" || MatchesSearch(m, Lower(searchTerm))) &&
      (severityFilter == "all" || m.severity == severityFilter)
  {
    FilterIsOneKeep(catalogue, searchTerm, severityFilter);
    KeepMember(catalogue, PassesPredicate(searchTerm, severityFilter), m);
  }

  /** No search term and severity "all" list the whole catalogue. */
  lemma FilterNothing(catalogue: seq<ConflictingMetric>)
    ensures FilterMetrics(catalogue, "", "all") == catalogue
  {
  }

  /** Filtering the listed metrics again with the same inputs lists the same metrics. */
  lemma FilterIdempotent(catalogue: seq<ConflictingMetric>, searchTerm: string, severityFilter: string)
    ensures var once := FilterMetrics(catalogue, searchTerm, severityFilter);
      FilterMetrics(once, searchTerm, severityFilter) == once
  {
    var P := PassesPredicate(searchTerm, severityFilter);
    FilterIsOneKeep(catalogue, searchTerm, severityFilter);
    FilterIsOneKeep(Keep(catalogue, P), searchTerm, severityFilter);
    KeepIdempotent(catalogue, P);
  }

  /** The recommendation is never searched: changing it changes nothing. */
  lemma RecommendationNotSearched(m: ConflictingMetric, r: string, searchTerm: string, severityFilter: string)
    ensures Passes(m.(recommendation := r), searchTerm, severityFilter) == Passes(m, searchTerm, severityFilter)
  {
  }

  /** The severity tab alone lists the three High metrics of the shipped catalogue, in order. */
  lemma HighSeverityTab()
    ensures FilterMetrics(ConflictingMetrics, "", "High") == ConflictingMetrics[..3]
  {
    var V := SeverityPredicate("High");
    var c := ConflictingMetrics;
    assert c == c[..3] + c[3..];
    KeepAppend(c[..3], c[3..], V);
    KeepAll(c[..3], V);
    assert forall i :: 0 <= i < |c[3..]| ==> c[3..][i].severity != "High";
    KeepEmpty(c[3..], V);
  }

  /** "churn" lists Churn Rate. */
  lemma ChurnSearchFindsChurnRate()
    ensures ConflictingMetrics[2] in FilterMetrics(ConflictingMetrics, "churn", "all")
  {
    var m := ConflictingMetrics[2];
    assert Lower("churn") == "churn";
    assert Lower(m.name) == "churn rate";
    assert Lower(m.name)[0..][..5] == "churn";
    assert MatchesSearch(m, Lower("churn"));
    FilterMember(ConflictingMetrics, "churn", "all", m);
  }

  // ---------------------------------------------------------------------
  // The view

  const EmptyListMessage: string := "No metrics found matching your search criteria"

  class MetricConflicts {
    var searchTerm: string
    var severityFilter: string
    var filteredMetrics: seq<ConflictingMetric>

    /** The listed metrics are always the filter of the current inputs. */
    ghost predicate Valid()
      reads this
    {
      filteredMetrics == FilterMetrics(ConflictingMetrics, searchTerm, severityFilter)
    }

    constructor()
      ensures Valid()
      ensures searchTerm == "" && severityFilter == "all" && filteredMetrics == ConflictingMetrics
    {
      searchTerm, severityFilter := "", "all";
      filteredMetrics := ConflictingMetrics;
      FilterNothing(ConflictingMetrics);
    }

    /** The effect: recompute the list from the catalogue and both inputs. */
    method ApplyFilters()
      modifies this`filteredMetrics
      ensures Valid()
    {
      var filtered := ConflictingMetrics;
      if searchTerm != "" {
        var term := Lower(searchTerm);
        filtered := Keep(filtered, SearchPredicate(term));
      }
      if severityFilter != "all" {
        filtered := Keep(filtered, SeverityPredicate(severityFilter));
      }
      filteredMetrics := filtered;
    }

    method SetSearchTerm(t: string)
      modifies this
      ensures Valid()
      ensures searchTerm == t && severityFilter == old(severityFilter)
    {
      searchTerm := t;
      ApplyFilters();
    }

    method SetSeverityFilter(s: string)
      modifies this
      ensures Valid()
      ensures severityFilter == s && searchTerm == old(searchTerm)
    {
      severityFilter := s;
      ApplyFilters();
    }

    /** The explicit empty state, shown exactly when nothing is listed. */
    function EmptyState(): (msg: Option<string>)
      reads this
      ensures msg.Some? <==> |filteredMetrics| == 0
      ensures msg.Some? ==> msg.value == EmptyListMessage
    {
      if |filteredMetrics| == 0 then Some(EmptyListMessage) else None
    }
  }

  // ---------------------------------------------------------------------
  // Badge colours

  const RedBadge: string := "bg-red-600 hover:bg-red-700"
  const YellowBadge: string := "bg-yellow-600 hover:bg-yellow-700"
  const BlueBadge: string := "bg-blue-600 hover:bg-blue-700"
  const GreenBadge: string := "bg-green-600 hover:bg-green-700"
  const PurpleBadge: string := "bg-purple-600 hover:bg-purple-700"
  const AmberBadge: string := "bg-amber-600 hover:bg-amber-700"
  const RoseBadge: string := "bg-rose-600 hover:bg-rose-700"
  const CyanBadge: string := "bg-cyan-600 hover:bg-cyan-700"
  const GrayBadge: string := "bg-gray-600 hover:bg-gray-700"

  /** Badge class of a catalogue severity; gray exactly for unknown values. */
  function SeverityColor(severity: string): (c: string)
    ensures c == GrayBadge <==> !IsSeverity(severity)
  {
    match severity
    case "High" => RedBadge
    case "Medium" => YellowBadge
    case "Low" => BlueBadge
    case _ => GrayBadge
  }

  predicate IsKnownTeam(team: string) {
    team in ["Sales", "Marketing", "Product", "Data", "Finance", "Customer Success"]
  }

  /** Badge class of a team; gray exactly for teams outside the six departments. */
  function TeamColor(team: string): (c: string)
    ensures c == GrayBadge <==> !IsKnownTeam(team)
  {
    match team
    case "Sales" => BlueBadge
    case "Marketing" => GreenBadge
    case "Product" => PurpleBadge
    case "Data" => AmberBadge
    case "Finance" => RoseBadge
    case "Customer Success" => CyanBadge
    case _ => GrayBadge
  }

  /** Every metric of the shipped catalogue gets a coloured severity badge. */
  lemma CatalogueSeverityBadges()
    ensures forall k :: 0 <= k < |ConflictingMetrics| ==> SeverityColor(ConflictingMetrics[k].severity) != GrayBadge
  {
    CatalogueSeverities();
  }
}
