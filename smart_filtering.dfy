/** The filter panel: a search query, a status, team and technology
    filters and a sort choice; every change re-runs the pipeline and hands
    the result to the owner. */
module SmartFiltering {
  import opened Seqs
  import opened Types
  import opened Text

  datatype SortBy = ByScore | ByImpact | ByEase | ByRecent | ByTitle
  datatype SortOrder = Ascending | Descending

  /** The search matches title, description, business objective, a team or
      a technology, lower-cased, against the lower-cased query. */
  predicate SearchMatches(uc: UseCase, query: string)
  {
    || Includes(Lower(uc.title), query)
    || Includes(Lower(uc.description), query)
    || Includes(Lower(uc.businessObjective), query)
    || SomeIncludes(uc.team, query)
    || SomeIncludes(uc.technologies, query)
  }

  /** Some value of `xs` is among `selected`. */
  predicate SharesAny(xs: seq<string>, selected: seq<string>)
  {
    exists i :: 0 <= i < |xs| && xs[i] in selected
  }

  /** The panel's filter and sort choices. */
  datatype Filters = Filters(query: string, status: string, teams: seq<string>, techs: seq<string>,
                             sortBy: SortBy, order: SortOrder)

  /** The choices initially and after `resetFilters`. */
  const DefaultFilters: Filters := Filters("", "all", [], [], ByScore, Descending)

  /** How many filters are active: a non-empty query (even a blank one),
      a status other than "all", a team filter, a technology filter. */
  function FilterCount(f: Filters): (n: nat)
    ensures n <= 4
    ensures n == 0 <==> f.query == "" && f.status == "all" && f.teams == [] && f.techs == []
  {
    (if f.query != "" then 1 else 0) + (if f.status != "all" then 1 else 0)
    + (if |f.teams| > 0 then 1 else 0) + (if |f.techs| > 0 then 1 else 0)
  }

  /** The score of a parameter when it is present; every score level is
      non-zero, so present is truthy. */
  function ScoreAt(uc: UseCase, id: string): Option<ScoreLevel>
  {
    if id in uc.scores then Some(uc.scores[id]) else None
  }

  /** Both scores present: the higher first; otherwise the pair is equal. */
  function ByScoreOf(id: string, a: UseCase, b: UseCase): real
  {
    var x := ScoreAt(a, id);
    var y := ScoreAt(b, id);
    if x.Some? && y.Some? then y.value as real - x.value as real else 0.0
  }

  /** The comparison before the order is applied; `locale` is `localeCompare`. */
  function Comparison(key: SortBy, locale: Comparator<string>, a: UseCase, b: UseCase): real
  {
    match key
    case ByScore => b.score - a.score
    case ByImpact => ByScoreOf("impact", a, b)
    case ByEase => ByScoreOf("easeOfImplementation", a, b)
    case ByRecent => (b.updatedAt - a.updatedAt) as real
    case ByTitle => locale(a.title, b.title)
  }

  /** The panel's comparator: ascending negates every comparison. */
  function PanelComparator(key: SortBy, order: SortOrder, locale: Comparator<string>): Comparator<UseCase>
  {
    (a: UseCase, b: UseCase) =>
      var c := Comparison(key, locale, a, b);
      if order == Ascending then -c else c
  }

  predicate PassesSearch(uc: UseCase, query: string)
  {
    IsBlank(query) || SearchMatches(uc, Lower(query))
  }

  predicate PassesStatus(uc: UseCase, status: string)
  {
    status == "all" || uc.status == status
  }

  predicate PassesTeams(uc: UseCase, teams: seq<string>)
  {
    teams == [] || SharesAny(uc.team, teams)
  }

  predicate PassesTechs(uc: UseCase, techs: seq<string>)
  {
    techs == [] || SharesAny(uc.technologies, techs)
  }

  /** A use case passes every active filter. */
  predicate Passes(uc: UseCase, f: Filters)
  {
    PassesSearch(uc, f.query) && PassesStatus(uc, f.status) && PassesTeams(uc, f.teams) && PassesTechs(uc, f.techs)
  }

  /** One step of the pipeline: the filter `p` when its switch is on,
      the identity otherwise. */
  function Step(s: seq<UseCase>, on: bool, p: UseCase -> bool): seq<UseCase>
  {
    if on then Filter(s, p) else s
  }

  /** A step keeps, in order, the use cases that pass it. */
  lemma StepSpec(s: seq<UseCase>, on: bool, p: UseCase -> bool)
    ensures forall uc :: uc in Step(s, on, p) <==> uc in s && (!on || p(uc))
    ensures IsSubsequence(Step(s, on, p), s)
  {
    if on {
      FilterIsSubsequence(s, p);
    } else {
      FilterKeepsAll(s, (uc: UseCase) => true);
      FilterIsSubsequence(s, (uc: UseCase) => true);
    }
  }

  function SearchStep(ucs: seq<UseCase>, query: string): seq<UseCase>
  {
    Step(ucs, Trim(query) != "", (uc: UseCase) => SearchMatches(uc, Lower(query)))
  }

  function StatusStep(ucs: seq<UseCase>, status: string): seq<UseCase>
  {
    Step(ucs, status != "all", (uc: UseCase) => uc.status == status)
  }

  function TeamStep(ucs: seq<UseCase>, teams: seq<string>): seq<UseCase>
  {
    Step(ucs, |teams| > 0, (uc: UseCase) => SharesAny(uc.team, teams))
  }

  function TechStep(ucs: seq<UseCase>, techs: seq<string>): seq<UseCase>
  {
    Step(ucs, |techs| > 0, (uc: UseCase) => SharesAny(uc.technologies, techs))
  }

  /** The four filter steps in the panel's order. */
  function Filtered(ucs: seq<UseCase>, f: Filters): seq<UseCase>
  {
    TechStep(TeamStep(StatusStep(SearchStep(ucs, f.query), f.status), f.teams), f.techs)
  }

  /** The whole pipeline: the filter steps, then the sort. */
  function Pipeline(ucs: seq<UseCase>, f: Filters, locale: Comparator<string>): seq<UseCase>
  {
    Sort(Filtered(ucs, f), PanelComparator(f.sortBy, f.order, locale))
  }

  /** The filter steps keep exactly the use cases passing every active
      filter, in their input order. */
  lemma FilteredSpec(ucs: seq<UseCase>, f: Filters)
    ensures forall uc :: uc in Filtered(ucs, f) <==> uc in ucs && Passes(uc, f)
    ensures IsSubsequence(Filtered(ucs, f), ucs)
  {
    var s1 := SearchStep(ucs, f.query);
    var s2 := StatusStep(s1, f.status);
    var s3 := TeamStep(s2, f.teams);
    var s4 := TechStep(s3, f.techs);
    SearchStepSpec(ucs, f.query);
    StatusStepSpec(s1, f.status);
    TeamStepSpec(s2, f.teams);
    TechStepSpec(s3, f.techs);
    SubsequenceTransitive(s2, s1, ucs);
    SubsequenceTransitive(s3, s2, ucs);
    SubsequenceTransitive(s4, s3, ucs);
  }

  lemma SearchStepSpec(ucs: seq<UseCase>, query: string)
    ensures forall uc :: uc in SearchStep(ucs, query) <==> uc in ucs && PassesSearch(uc, query)
    ensures IsSubsequence(SearchStep(ucs, query), ucs)
  {
    TrimEmptyIffBlank(query);
    StepSpec(ucs, Trim(query) != "", (uc: UseCase) => SearchMatches(uc, Lower(query)));
  }

  lemma StatusStepSpec(ucs: seq<UseCase>, status: string)
    ensures forall uc :: uc in StatusStep(ucs, status) <==> uc in ucs && PassesStatus(uc, status)
    ensures IsSubsequence(StatusStep(ucs, status), ucs)
  {
    StepSpec(ucs, status != "all", (uc: UseCase) => uc.status == status);
  }

  lemma TeamStepSpec(ucs: seq<UseCase>, teams: seq<string>)
    ensures forall uc :: uc in TeamStep(ucs, teams) <==> uc in ucs && PassesTeams(uc, teams)
    ensures IsSubsequence(TeamStep(ucs, teams), ucs)
  {
    StepSpec(ucs, |teams| > 0, (uc: UseCase) => SharesAny(uc.team, teams));
  }

  lemma TechStepSpec(ucs: seq<UseCase>, techs: seq<string>)
    ensures forall uc :: uc in TechStep(ucs, techs) <==> uc in ucs && PassesTechs(uc, techs)
    ensures IsSubsequence(TechStep(ucs, techs), ucs)
  {
    StepSpec(ucs, |techs| > 0, (uc: UseCase) => SharesAny(uc.technologies, techs));
  }

  /** The pipeline's result is a permutation of the filtered use cases. */
  lemma PipelinePermutes(ucs: seq<UseCase>, f: Filters, locale: Comparator<string>)
    ensures multiset(Pipeline(ucs, f, locale)) == multiset(Filtered(ucs, f))
  {
  }

  /** A blank query counts as a filter but keeps every use case: the
      search step is skipped. */
  lemma BlankQueryCountsButKeepsAll(ucs: seq<UseCase>, f: Filters)
    requires IsBlank(f.query) && f.query != ""
    ensures FilterCount(f) == FilterCount(f.(query := "")) + 1
    ensures SearchStep(ucs, f.query) == ucs
  {
    TrimEmptyIffBlank(f.query);
  }

  /** Sorted on the score (the default) the use cases come highest score
      first; ascending order reverses it. */
  lemma ScoreSortOrder(s: seq<UseCase>, order: SortOrder, locale: Comparator<string>)
    ensures var r := Sort(s, PanelComparator(ByScore, order, locale));
            forall i, j :: 0 <= i < j < |r| ==>
              if order == Descending then r[i].score >= r[j].score else r[i].score <= r[j].score
  {
    var cmp := PanelComparator(ByScore, order, locale);
    SortSorted(s, cmp, s);
    var r := Sort(s, cmp);
    forall i, j | 0 <= i < j < |r|
      ensures if order == Descending then r[i].score >= r[j].score else r[i].score <= r[j].score
    {
      assert cmp(r[i], r[j]) <= 0.0;
    }
  }

  /** Sorting on impact or ease compares a pair only when both have that
      score; otherwise the pair counts as equal. */
  lemma MissingScoreComparesEqual(a: UseCase, b: UseCase, order: SortOrder, locale: Comparator<string>)
    ensures !("impact" in a.scores && "impact" in b.scores) ==> PanelComparator(ByImpact, order, locale)(a, b) == 0.0
    ensures !("easeOfImplementation" in a.scores && "easeOfImplementation" in b.scores) ==>
              PanelComparator(ByEase, order, locale)(a, b) == 0.0
    ensures "impact" in a.scores && "impact" in b.scores ==>
              PanelComparator(ByImpact, order, locale)(a, b) ==
                (if order == Ascending then a.scores["impact"] as real - b.scores["impact"] as real
                 else b.scores["impact"] as real - a.scores["impact"] as real)
  {
  }
  /** `toggleTeamFilter` / `toggleTechFilter`: a selected value is removed
      (every copy), any other appended. */
  function Toggled(selected: seq<string>, x: string): (r: seq<string>)
    ensures forall y :: y in r <==> (y in selected) != (y == x)
  {
    if x in selected then Filter(selected, (t: string) => t != x) else selected + [x]
  }

  /** Toggling twice restores the same selection; when the value was not
      selected it also restores the same order. */
  lemma ToggleTwice(selected: seq<string>, x: string)
    ensures forall y :: y in Toggled(Toggled(selected, x), x) <==> y in selected
    ensures x !in selected ==> Toggled(Toggled(selected, x), x) == selected
  {
    if x !in selected {
      var added := selected + [x];
      assert forall t :: t in selected ==> t != x;
      FilterConcat(selected, [x], (t: string) => t != x);
      FilterKeepsAll(selected, (t: string) => t != x);
      assert Filter([x], (t: string) => t != x) == [];
    }
  }

  /** The lists one after another. */
  function Flatten(lists: seq<seq<string>>): seq<string>
    decreases |lists|
  {
    if lists == [] then [] else Flatten(lists[..|lists| - 1]) + lists[|lists| - 1]
  }

  /** Each value of `s` once, where it first appears. */
  function FirstAppearances(s: seq<string>): (r: seq<string>)
    ensures forall x :: x in r <==> x in s
    ensures forall a, b :: 0 <= a < b < |r| ==> r[a] != r[b]
    decreases |s|
  {
    if s == [] then []
    else
      var init := FirstAppearances(s[..|s| - 1]);
      var x := s[|s| - 1];
      assert forall y :: y in s <==> y in s[..|s| - 1] || y == x by {
        LastSplit(s);
      }
      if x in init then init else init + [x]
  }

  /** A value is in the flattened lists exactly when one of the lists holds it. */
  lemma {:induction false} FlattenMembers(lists: seq<seq<string>>)
    ensures forall x :: x in Flatten(lists) <==> exists i, j :: 0 <= i < |lists| && 0 <= j < |lists[i]| && lists[i][j] == x
    decreases |lists|
  {
    if lists != [] {
      var init := lists[..|lists| - 1];
      FlattenMembers(init);
      assert forall i :: 0 <= i < |init| ==> init[i] == lists[i];
    }
  }

  lemma FirstAppearancesSnoc(p: seq<string>, c: string)
    ensures FirstAppearances(p + [c]) == if c in FirstAppearances(p) then FirstAppearances(p) else FirstAppearances(p) + [c]
  {
    assert (p + [c])[..|p|] == p;
  }

  lemma FlattenStep(lists: seq<seq<string>>, i: nat, j: nat)
    requires i < |lists| && j < |lists[i]|
    ensures Flatten(lists[..i]) + lists[i][..j + 1] == (Flatten(lists[..i]) + lists[i][..j]) + [lists[i][j]]
  {
    assert lists[i][..j + 1] == lists[i][..j] + [lists[i][j]];
  }

  lemma FlattenNext(lists: seq<seq<string>>, i: nat)
    requires i < |lists|
    ensures Flatten(lists[..i]) + lists[i][..|lists[i]|] == Flatten(lists[..i + 1])
  {
    assert lists[..i + 1][..i] == lists[..i];
    assert lists[i][..|lists[i]|] == lists[i];
  }

  /** The values of some lists, each once, in order of first appearance
      (`Array.from` of a set filled list by list). */
  method DistinctValues(lists: seq<seq<string>>) returns (r: seq<string>)
    ensures r == FirstAppearances(Flatten(lists))
    ensures forall x :: x in r <==> exists i, j :: 0 <= i < |lists| && 0 <= j < |lists[i]| && lists[i][j] == x
    ensures forall a, b :: 0 <= a < b < |r| ==> r[a] != r[b]
  {
    r := [];
    var i := 0;
    while i < |lists|
      invariant 0 <= i <= |lists|
      invariant r == FirstAppearances(Flatten(lists[..i]))
    {
      var j := 0;
      assert Flatten(lists[..i]) + lists[i][..0] == Flatten(lists[..i]);
      while j < |lists[i]|
        invariant 0 <= j <= |lists[i]|
        invariant r == FirstAppearances(Flatten(lists[..i]) + lists[i][..j])
      {
        FlattenStep(lists, i, j);
        FirstAppearancesSnoc(Flatten(lists[..i]) + lists[i][..j], lists[i][j]);
        if lists[i][j] !in r {
          r := r + [lists[i][j]];
        }
        j := j + 1;
      }
      FlattenNext(lists, i);
      i := i + 1;
    }
    assert lists[..i] == lists;
    FlattenMembers(lists);
  }

  function Teams(ucs: seq<UseCase>): seq<seq<string>>
  {
    seq(|ucs|, i requires 0 <= i < |ucs| => ucs[i].team)
  }

  function Technologies(ucs: seq<UseCase>): seq<seq<string>>
  {
    seq(|ucs|, i requires 0 <= i < |ucs| => ucs[i].technologies)
  }

  /** The panel's effect, first part: one for each active filter. */
  method CountActive(f: Filters) returns (count: nat)
    ensures count == FilterCount(f)
  {
    count := 0;
    if f.query != "" { count := count + 1; }
    if f.status != "all" { count := count + 1; }
    if |f.teams| > 0 { count := count + 1; }
    if |f.techs| > 0 { count := count + 1; }
  }

  /** The panel's effect, second part: each active filter in turn, then
      the sort. */
  method FilterPipeline(ucs: seq<UseCase>, f: Filters, locale: Comparator<string>) returns (filtered: seq<UseCase>)
    ensures filtered == Pipeline(ucs, f, locale)
  {
    filtered := ucs;
    if Trim(f.query) != "" {
      var query := Lower(f.query);
      filtered := Filter(filtered, (uc: UseCase) => SearchMatches(uc, query));
    }
    assert filtered == SearchStep(ucs, f.query);
    var searched := filtered;
    if f.status != "all" {
      var status := f.status;
      filtered := Filter(filtered, (uc: UseCase) => uc.status == status);
    }
    assert filtered == StatusStep(searched, f.status);
    var byStatus := filtered;
    if |f.teams| > 0 {
      var teams := f.teams;
      filtered := Filter(filtered, (uc: UseCase) => SharesAny(uc.team, teams));
    }
    assert filtered == TeamStep(byStatus, f.teams);
    var byTeam := filtered;
    if |f.techs| > 0 {
      var techs := f.techs;
      filtered := Filter(filtered, (uc: UseCase) => SharesAny(uc.technologies, techs));
    }
    assert filtered == TechStep(byTeam, f.techs);
    filtered := Sort(filtered, PanelComparator(f.sortBy, f.order, locale));
  }

  /** The panel's state; `emitted` records, oldest first, every list handed
      to the owner. */
  class Panel {
    var filters: Filters
    var availableTeams: seq<string>
    var availableTechnologies: seq<string>
    var filterCount: nat
    var emitted: seq<seq<UseCase>>

    constructor()
      ensures filters == DefaultFilters && filterCount == 0 && emitted == []
      ensures availableTeams == [] && availableTechnologies == []
    {
      filters := DefaultFilters;
      availableTeams := [];
      availableTechnologies := [];
      filterCount := 0;
      emitted := [];
    }

    /** The effect collecting the teams and technologies on offer. */
    method CollectAvailable(ucs: seq<UseCase>)
      modifies this
      ensures forall t :: t in availableTeams <==> exists i, j :: 0 <= i < |ucs| && 0 <= j < |ucs[i].team| && ucs[i].team[j] == t
      ensures forall t :: t in availableTechnologies <==>
                exists i, j :: 0 <= i < |ucs| && 0 <= j < |ucs[i].technologies| && ucs[i].technologies[j] == t
      ensures filters == old(filters) && filterCount == old(filterCount) && emitted == old(emitted)
    {
      var teams := DistinctValues(Teams(ucs));
      var techs := DistinctValues(Technologies(ucs));
      assert forall i :: 0 <= i < |ucs| ==> Teams(ucs)[i] == ucs[i].team && Technologies(ucs)[i] == ucs[i].technologies;
      availableTeams := teams;
      availableTechnologies := techs;
    }

    /** The effect applying the filters: count the active ones, narrow the
      list step by step, sort it, hand it over. */
    method ApplyFilters(ucs: seq<UseCase>, locale: Comparator<string>)
      modifies this
      ensures filterCount == FilterCount(filters)
      ensures emitted == old(emitted) + [Pipeline(ucs, filters, locale)]
      ensures filters == old(filters)
      ensures availableTeams == old(availableTeams) && availableTechnologies == old(availableTechnologies)
    {
      var f := filters;
      var count := CountActive(f);
      var filtered := FilterPipeline(ucs, f, locale);
      filterCount := count;
      emitted := emitted + [filtered];
    }

    method SetFilters(f: Filters)
      modifies this
      ensures filters == f
      ensures filterCount == old(filterCount) && emitted == old(emitted)
      ensures availableTeams == old(availableTeams) && availableTechnologies == old(availableTechnologies)
    {
      filters := f;
    }

    method ToggleTeamFilter(team: string)
      modifies this
      ensures filters == old(filters).(teams := Toggled(old(filters).teams, team))
      ensures filterCount == old(filterCount) && emitted == old(emitted)
      ensures availableTeams == old(availableTeams) && availableTechnologies == old(availableTechnologies)
    {
      filters := filters.(teams := Toggled(filters.teams, team));
    }

    method ToggleTechFilter(tech: string)
      modifies this
      ensures filters == old(filters).(techs := Toggled(old(filters).techs, tech))
      ensures filterCount == old(filterCount) && emitted == old(emitted)
      ensures availableTeams == old(availableTeams) && availableTechnologies == old(availableTechnologies)
    {
      filters := filters.(techs := Toggled(filters.techs, tech));
    }

    method ResetFilters()
      modifies this
      ensures filters == DefaultFilters
      ensures filterCount == old(filterCount) && emitted == old(emitted)
      ensures availableTeams == old(availableTeams) && availableTechnologies == old(availableTechnologies)
    {
      filters := DefaultFilters;
    }
  }
}
