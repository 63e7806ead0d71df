/**
 * The glossary view: a private copy of the standardized terms, a search
 * over name and definition, the add-term form and its guarded append, and
 * the team badge colours.
 */
module GlossaryTermsView {
  import opened Text
  import opened KpiData
  import opened Filtering

  /** The add-term form's fields. */
  datatype NewTerm = NewTerm(name: string, team: string, definition: string, relatedTerms: seq<string>)

  /** The form as it starts and as it is reset after a save. */
  const BlankForm: NewTerm := NewTerm("", "All", "", [])

  // ---------------------------------------------------------------------
  // Search

  /** `term` (already lower-cased) occurs in the entry's name or definition. */
  predicate MatchesSearch(e: GlossaryTerm, term: string) {
    Contains(Lower(e.name), term) || Contains(Lower(e.definition), term)
  }

  function SearchPredicate(term: string): GlossaryTerm -> bool {
    e => MatchesSearch(e, term)
  }

  /** The entries shown for a search term, in glossary order. */
  function FilterGlossary(glossary: seq<GlossaryTerm>, searchTerm: string): (r: seq<GlossaryTerm>)
    ensures |r| <= |glossary|
  {
    Keep(glossary, SearchPredicate(Lower(searchTerm)))
  }

  /** An entry is shown iff the lower-cased search occurs in its lower-cased name or definition. */
  lemma GlossaryFilterMember(glossary: seq<GlossaryTerm>, searchTerm: string, e: GlossaryTerm)
    ensures e in FilterGlossary(glossary, searchTerm) <==>
      e in glossary &&
      (Contains(Lower(e.name), Lower(searchTerm)) || Contains(Lower(e.definition), Lower(searchTerm)))
  {
    KeepMember(glossary, SearchPredicate(Lower(searchTerm)), e);
  }

  /** The shown entries keep glossary order, each once. */
  lemma GlossaryFilterSelects(glossary: seq<GlossaryTerm>, searchTerm: string)
    ensures SelectedBy(FilterGlossary(glossary, searchTerm), glossary,
      SearchPredicate(Lower(searchTerm)), KeptIndices(glossary, SearchPredicate(Lower(searchTerm))))
  {
    KeepSelects(glossary, SearchPredicate(Lower(searchTerm)));
  }

  /** An empty search shows every entry, in order. */
  lemma EmptySearchShowsAll(glossary: seq<GlossaryTerm>)
    ensures FilterGlossary(glossary, "") == glossary
  {
    forall i | 0 <= i < |glossary| ensures MatchesSearch(glossary[i], Lower("")) {
      ContainsEmpty(Lower(glossary[i].name));
    }
    KeepAll(glossary, SearchPredicate(Lower("")));
  }

  /** Team and related terms are never searched. */
  lemma TeamNotSearched(e: GlossaryTerm, team: string, related: seq<string>, term: string)
    ensures MatchesSearch(e.(team := team, relatedTerms := related), term) == MatchesSearch(e, term)
  {
  }

  // ---------------------------------------------------------------------
  // The view

  class GlossaryTerms {
    var glossary: seq<GlossaryTerm>
    var searchTerm: string
    var showAddForm: bool
    var newTerm: NewTerm

    /** Ids are 1, 2, ..., |glossary| in order. */
    ghost predicate Valid()
      reads this
    {
      GlossaryIdsSequential(glossary)
    }

    constructor()
      ensures Valid()
      ensures glossary == StandardizedMetrics && searchTerm == "" && !showAddForm && newTerm == BlankForm
    {
      glossary, searchTerm, showAddForm, newTerm := StandardizedMetrics, "", false, BlankForm;
      GlossaryIds();
    }

    /** The entries currently shown. */
    function Shown(): seq<GlossaryTerm>
      reads this
    {
      FilterGlossary(glossary, searchTerm)
    }

    method SetSearchTerm(t: string)
      requires Valid()
      modifies this`searchTerm
      ensures Valid()
      ensures searchTerm == t
    {
      searchTerm := t;
    }

    /** "Add Term" opens the form; "Cancel" closes it. Neither touches the form's fields. */
    method SetShowAddForm(show: bool)
      requires Valid()
      modifies this`showAddForm
      ensures Valid()
      ensures showAddForm == show
    {
      showAddForm := show;
    }

    /** The form's inputs: name, team and definition edits. */
    method EditNewTerm(name: string, team: string, definition: string)
      requires Valid()
      modifies this`newTerm
      ensures Valid()
      ensures newTerm == old(newTerm).(name := name, team := team, definition := definition)
    {
      newTerm := newTerm.(name := name, team := team, definition := definition);
    }

    /**
     * With a name and a definition: append the form as a new entry with id
     * length + 1, reset the form and close it. Otherwise nothing changes.
     * Either way the ids stay 1..length, hence distinct.
     */
    method HandleAddTerm()
      requires Valid()
      modifies this
      ensures Valid() && GlossaryIdsDistinct(glossary)
      ensures searchTerm == old(searchTerm)
      ensures old(newTerm.name) == "" || old(newTerm.definition) == "" ==>
        glossary == old(glossary) && newTerm == old(newTerm) && showAddForm == old(showAddForm)
      ensures old(newTerm.name) != "" && old(newTerm.definition) != "" ==>
        |glossary| == |old(glossary)| + 1 &&
        glossary[..|old(glossary)|] == old(glossary) &&
        glossary[|old(glossary)|] ==
          GlossaryTerm(|old(glossary)| + 1, old(newTerm.name), old(newTerm.team),
            old(newTerm.definition), old(newTerm.relatedTerms)) &&
        newTerm == BlankForm && !showAddForm
    {
      if newTerm.name != "" && newTerm.definition != "" {
        var entry := GlossaryTerm(|glossary| + 1, newTerm.name, newTerm.team, newTerm.definition, newTerm.relatedTerms);
        glossary := glossary + [entry];
        newTerm := BlankForm;
        showAddForm := false;
      }
      SequentialIdsDistinct(glossary);
    }
  }

  // ---------------------------------------------------------------------
  // Team badges

  const BlueBadge: string := "bg-blue-600 hover:bg-blue-700"
  const GreenBadge: string := "bg-green-600 hover:bg-green-700"
  const PurpleBadge: string := "bg-purple-600 hover:bg-purple-700"
  const AmberBadge: string := "bg-amber-600 hover:bg-amber-700"
  const RoseBadge: string := "bg-rose-600 hover:bg-rose-700"
  const CyanBadge: string := "bg-cyan-600 hover:bg-cyan-700"
  const SlateBadge: string := "bg-slate-600 hover:bg-slate-700"
  const GrayBadge: string := "bg-gray-600 hover:bg-gray-700"

  predicate IsGlossaryTeam(team: string) {
    team in ["Sales", "Marketing", "Product", "Data", "Finance", "Customer Success", "All"]
  }

  /** Badge class of an entry's team: slate for "All", gray exactly for unknown teams. */
  function TeamColor(team: string): (c: string)
    ensures team == "All" <==> c == SlateBadge
    ensures c == GrayBadge <==> !IsGlossaryTeam(team)
  {
    match team
    case "Sales" => BlueBadge
    case "Marketing" => GreenBadge
    case "Product" => PurpleBadge
    case "Data" => AmberBadge
    case "Finance" => RoseBadge
    case "Customer Success" => CyanBadge
    case "All" => SlateBadge
    case _ => GrayBadge
  }
}
