/** The use-case collection: loading, adding, updating and deleting use
    cases, rescoring them when the parameters change, and the derived
    views (project and team filters, score order, status filter,
    per-parameter highlights and the table's columns). */
module UseCases {
  import opened Seqs
  import opened Types
  import opened ScoreUtils

  /** A use case as read back from storage: the score map and the two
      lists may be missing (or not be lists). */
  datatype StoredUseCase = StoredUseCase(
    record: UseCase,
    scores: Option<Scores>,
    team: Option<seq<string>>,
    technologies: Option<seq<string>>)

  /** One stored use case made usable: scores completed, a zero score
      recomputed (a non-zero one is kept as stored), lists defaulted to
      empty, an empty project id turned into none. */
  function Normalize(s: StoredUseCase, ps: seq<ScoreParameter>): (r: UseCase)
    ensures Ids(ps) <= r.scores.Keys
    ensures r.id == s.record.id
    ensures s.record.score != 0.0 ==> r.score == s.record.score
    ensures s.record.score == 0.0 ==> r.score == CompositeScore(Some(r.scores), ps)
  {
    var scores := EnsureComplete(s.scores, ps);
    s.record.(
      scores := scores,
      score := if s.record.score != 0.0 then s.record.score else CompositeScore(Some(scores), ps),
      team := s.team.GetOr([]),
      technologies := s.technologies.GetOr([]),
      projectId := OrElse(s.record.projectId, None))
  }

  /** The collection a session starts with: the seed list when nothing
      usable is stored, else every stored use case normalized. */
  function Loaded(saved: Option<seq<StoredUseCase>>, seed: seq<UseCase>, ps: seq<ScoreParameter>): (r: seq<UseCase>)
    ensures saved.None? || saved.value == [] ==> r == seed
    ensures saved.Some? && saved.value != [] ==>
              |r| == |saved.value| && forall i :: 0 <= i < |r| ==> r[i] == Normalize(saved.value[i], ps)
  {
    if saved.None? || saved.value == [] then seed
    else seq(|saved.value|, i requires 0 <= i < |saved.value| => Normalize(saved.value[i], ps))
  }

  /** A stored non-zero score is kept even when it is not what the
      parameters give: loading does not guarantee a consistent score. */
  lemma LoadedScoreMayBeStale(s: StoredUseCase, ps: seq<ScoreParameter>)
    requires s.record.score == 19.7
    ensures Normalize(s, ps).score != CompositeScore(Some(Normalize(s, ps).scores), ps)
  {
    var r := Normalize(s, ps);
    CompositeScoreOnFifths(Some(r.scores), ps);
  }

  /** The use case `addUseCase` builds: the form's fields, completed
      scores and their score, a fresh id, both dates set to now, the current
      project, and the form's team or else the current one. */
  function NewUseCase(form: FormData, id: string, now: int, project: Option<string>,
                      team: Option<Team>, ps: seq<ScoreParameter>): UseCase
  {
    var scores := EnsureComplete(form.scores, ps);
    UseCase(
      id, form.title, form.description, form.impact, form.ease,
      scores, CompositeScore(Some(scores), ps),
      form.team, form.technologies, form.businessObjective, form.expectedOutcome,
      form.successCriteria, form.estimatedTime, form.estimatedResources,
      form.estimatedTimeInWeeks, form.estimatedFTE, form.roleAllocations,
      form.inRoadmap, form.roadmapPhase, form.roadmapOrder,
      form.status, now, now, OrElse(project, None),
      OrElse(form.teamId, TeamId(team)), OrElse(form.teamName, TeamName(team)))
  }

  /** A new use case has complete, consistently scored scores, keeps the
      scores the form gave, and takes the current team only when the form
      names none. */
  lemma NewUseCaseConsistent(form: FormData, id: string, now: int, project: Option<string>,
                             team: Option<Team>, ps: seq<ScoreParameter>)
    ensures var r := NewUseCase(form, id, now, project, team, ps);
            && r.id == id && r.title == form.title && r.status == form.status
            && Ids(ps) <= r.scores.Keys
            && (form.scores.Some? ==> forall k :: k in form.scores.value ==> r.scores[k] == form.scores.value[k])
            && r.score == CompositeScore(Some(r.scores), ps)
            && r.createdAt == now && r.updatedAt == now
            && (form.teamId.Some? && form.teamId.value != "" ==> r.teamId == form.teamId)
            && (form.teamId.None? && team.Some? ==> r.teamId == Some(team.value.id))
  {
  }

  /** The scores an update leaves, as the code is written: the stored
      scores completed, or the submitted ones completed; then a legacy
      impact or ease level, when one is submitted, overwrites that score. */
  function UpdatedScoresAsWritten(uc: UseCase, p: Patch, ps: seq<ScoreParameter>): (r: Scores)
    ensures Ids(ps) <= r.Keys
  {
    var base := if p.scores.Some? then EnsureComplete(p.scores, ps) else EnsureComplete(Some(uc.scores), ps);
    var withImpact := if p.impact.Some? && p.impact.value != "" && "impact" in base
      then base["impact" := LevelToScore(p.impact.value)] else base;
    if p.ease.Some? && p.ease.value != "" && "easeOfImplementation" in withImpact
    then withImpact["easeOfImplementation" := LevelToScore(p.ease.value)]
    else withImpact
  }

  /** The form submits a 4 for impact together with the level "high" it
      derives from it; the update then stores 5, not the 4 that was chosen. */
  lemma LegacyOverrideAsWritten(uc: UseCase, p: Patch, ps: seq<ScoreParameter>)
    requires p.scores.Some? && "impact" in p.scores.value && p.scores.value["impact"] == 4
    requires p.impact == Some("high") && p.ease.None?
    ensures UpdatedScoresAsWritten(uc, p, ps)["impact"] == 5
  {
  }

  /** The scores an update leaves, with the legacy levels applied only
      when no explicit scores are submitted. */
  function UpdatedScores(uc: UseCase, p: Patch, ps: seq<ScoreParameter>): (r: Scores)
    ensures Ids(ps) <= r.Keys
  {
    if p.scores.Some? then EnsureComplete(p.scores, ps)
    else
      var base := EnsureComplete(Some(uc.scores), ps);
      var withImpact := if p.impact.Some? && p.impact.value != "" && "impact" in base
        then base["impact" := LevelToScore(p.impact.value)] else base;
      if p.ease.Some? && p.ease.value != "" && "easeOfImplementation" in withImpact
      then withImpact["easeOfImplementation" := LevelToScore(p.ease.value)]
      else withImpact
  }

  /** Submitted scores are stored exactly as submitted; without them a
      legacy level sets its score (impact and ease have scores once the
      registry lists them), and every other score stays. */
  lemma UpdatedScoresKeepsChoice(uc: UseCase, p: Patch, ps: seq<ScoreParameter>)
    ensures p.scores.Some? ==> forall k :: k in p.scores.value ==> UpdatedScores(uc, p, ps)[k] == p.scores.value[k]
    ensures p.scores.None? && p.impact.Some? && p.impact.value != "" && "impact" in Ids(ps) ==>
              UpdatedScores(uc, p, ps)["impact"] == LevelToScore(p.impact.value)
    ensures p.scores.None? && (p.impact.None? || p.impact.value == "") && (p.ease.None? || p.ease.value == "") ==>
              UpdatedScores(uc, p, ps) == EnsureComplete(Some(uc.scores), ps)
  {
  }

  /** Without a legacy level in the patch, the update as written and the
      corrected one leave the same scores; they differ only where a level
      overrides a submitted score. */
  lemma UpdatedScoresAgreeWithoutLevels(uc: UseCase, p: Patch, ps: seq<ScoreParameter>)
    requires (p.impact.None? || p.impact.value == "") && (p.ease.None? || p.ease.value == "")
    ensures UpdatedScoresAsWritten(uc, p, ps) == UpdatedScores(uc, p, ps)
  {
  }

  /** One entry after `updateUseCase`, as the code is written: the patch
      applied, the scores above with the legacy levels overriding, the
      score recomputed from them, the update time set. */
  function UpdatedEntry(uc: UseCase, p: Patch, now: int, ps: seq<ScoreParameter>): UseCase
  {
    var scores := UpdatedScoresAsWritten(uc, p, ps);
    ApplyPatch(uc, p).(scores := scores, score := CompositeScore(Some(scores), ps), updatedAt := now)
  }

  function Updated(ucs: seq<UseCase>, id: string, p: Patch, now: int, ps: seq<ScoreParameter>): seq<UseCase>
  {
    seq(|ucs|, i requires 0 <= i < |ucs| => if ucs[i].id == id then UpdatedEntry(ucs[i], p, now, ps) else ucs[i])
  }

  /** An update touches only the entries with that id, keeps their ids and
      creation dates, and leaves their score consistent with their scores. */
  lemma UpdatedOnlyTarget(ucs: seq<UseCase>, id: string, p: Patch, now: int, ps: seq<ScoreParameter>)
    ensures var r := Updated(ucs, id, p, now, ps);
            && |r| == |ucs|
            && (forall i :: 0 <= i < |ucs| && ucs[i].id != id ==> r[i] == ucs[i])
            && (forall i :: 0 <= i < |ucs| && ucs[i].id == id ==>
                  && r[i].id == id && r[i].createdAt == ucs[i].createdAt && r[i].updatedAt == now
                  && Ids(ps) <= r[i].scores.Keys
                  && r[i].score == CompositeScore(Some(r[i].scores), ps))
  {
  }

  /** Every use case after a parameter change: scores completed for the
      new parameters and the score recomputed. */
  function Rescored(uc: UseCase, ps: seq<ScoreParameter>, now: int): UseCase
  {
    var scores := EnsureComplete(Some(uc.scores), ps);
    uc.(scores := scores, score := CompositeScore(Some(scores), ps), updatedAt := now)
  }

  function Recomputed(ucs: seq<UseCase>, ps: seq<ScoreParameter>, now: int): seq<UseCase>
  {
    seq(|ucs|, i requires 0 <= i < |ucs| => Rescored(ucs[i], ps, now))
  }

  /** Rescoring keeps the collection's length and order and every score
      it had, and leaves every use case completely and consistently scored. */
  lemma RecomputedConsistent(ucs: seq<UseCase>, ps: seq<ScoreParameter>, now: int)
    ensures var r := Recomputed(ucs, ps, now);
            && |r| == |ucs|
            && (forall i :: 0 <= i < |r| ==>
                  && r[i].id == ucs[i].id && r[i].title == ucs[i].title
                  && Ids(ps) <= r[i].scores.Keys
                  && (forall k :: k in ucs[i].scores ==> r[i].scores[k] == ucs[i].scores[k])
                  && r[i].score == CompositeScore(Some(r[i].scores), ps))
  {
  }

  /** Rescoring under a reordered parameter list gives the same scores. */
  lemma RecomputedReorderInvariant(ucs: seq<UseCase>, ps: seq<ScoreParameter>, qs: seq<ScoreParameter>, now: int, i: nat)
    requires multiset(ps) == multiset(qs) && DistinctIds(ps) && i < |ucs|
    ensures Recomputed(ucs, ps, now)[i].score == Recomputed(ucs, qs, now)[i].score
  {
    var m := ucs[i].scores;
    SameIdsOfPermutation(ps, qs);
    CompletedDependsOnlyOnDefaults(m, ps, qs);
    CompositeScorePermutation(Some(Completed(m, ps)), ps, qs);
  }

  lemma SameIdsOfPermutation(ps: seq<ScoreParameter>, qs: seq<ScoreParameter>)
    requires multiset(ps) == multiset(qs)
    ensures Ids(ps) == Ids(qs)
    ensures forall p :: p in ps <==> p in qs
  {
    PermutationMembers(ps, qs);
    forall k | k in Ids(ps) ensures k in Ids(qs) {
      var i :| 0 <= i < |ps| && ps[i].id == k;
      assert ps[i] in qs;
    }
    forall k | k in Ids(qs) ensures k in Ids(ps) {
      var i :| 0 <= i < |qs| && qs[i].id == k;
      assert qs[i] in ps;
    }
  }

  /** The first parameter of a list carrying a given id. */
  lemma FirstWithId(ps: seq<ScoreParameter>, k: string) returns (j: nat)
    requires k in Ids(ps)
    ensures j < |ps| && ps[j].id == k
    ensures forall i :: 0 <= i < j ==> ps[i].id != k
  {
    j := 0;
    while ps[j].id != k
      invariant j < |ps| && forall i :: 0 <= i < j ==> ps[i].id != k
      decreases |ps| - j
    {
      if j + 1 == |ps| {
        var i :| 0 <= i < |ps| && ps[i].id == k;
        assert false;
      }
      j := j + 1;
    }
  }

  /** With distinct ids, completing under a reordered list gives the same map. */
  lemma CompletedDependsOnlyOnDefaults(m: Scores, ps: seq<ScoreParameter>, qs: seq<ScoreParameter>)
    requires multiset(ps) == multiset(qs) && DistinctIds(ps)
    ensures Completed(m, ps) == Completed(m, qs)
  {
    SameIdsOfPermutation(ps, qs);
    var a, b := Completed(m, ps), Completed(m, qs);
    forall k | k in a
      ensures b[k] == a[k]
    {
      if k !in m {
        var i := FirstWithId(ps, k);
        var j := FirstWithId(qs, k);
        assert qs[j] in ps;
        var i' :| 0 <= i' < |ps| && ps[i'] == qs[j];
        if i' != i {
          if i' < i { assert ps[i'].id != ps[i].id; } else { assert ps[i].id != ps[i'].id; }
        }
        CompletedFillsDefaults(m, ps, i);
        CompletedFillsDefaults(m, qs, j);
      }
    }
  }

  /** `deleteUseCase`. */
  function Deleted(ucs: seq<UseCase>, id: string): seq<UseCase>
  {
    Filter(ucs, (uc: UseCase) => uc.id != id)
  }

  /** Deleting removes every entry with the id and keeps the others in order. */
  lemma DeletedSpec(ucs: seq<UseCase>, id: string)
    ensures forall uc :: uc in Deleted(ucs, id) <==> uc in ucs && uc.id != id
    ensures IsSubsequence(Deleted(ucs, id), ucs)
  {
    FilterIsSubsequence(ucs, (uc: UseCase) => uc.id != id);
  }

  /** The use cases of the current project (all of them without one). */
  function ProjectFiltered(ucs: seq<UseCase>, project: Option<string>): seq<UseCase>
  {
    if project.None? then ucs else Filter(ucs, (uc: UseCase) => uc.projectId == project)
  }

  /** In team view with a current team, only that team's use cases. */
  function TeamFiltered(ucs: seq<UseCase>, teamView: bool, team: Option<Team>): seq<UseCase>
  {
    if teamView && team.Some? then Filter(ucs, (uc: UseCase) => uc.teamId == Some(team.value.id)) else ucs
  }

  lemma ViewFiltersSpec(ucs: seq<UseCase>, project: Option<string>, teamView: bool, team: Option<Team>)
    ensures forall uc :: uc in ProjectFiltered(ucs, project) <==> uc in ucs && (project.None? || uc.projectId == project)
    ensures teamView && team.Some? ==>
              forall uc :: uc in TeamFiltered(ucs, teamView, team) <==> uc in ucs && uc.teamId == Some(team.value.id)
    ensures !(teamView && team.Some?) ==> TeamFiltered(ucs, teamView, team) == ucs
  {
  }

  /** `(a, b) => b.score - a.score`: higher scores first. */
  function ScoreDescending(a: UseCase, b: UseCase): real
  {
    b.score - a.score
  }

  lemma ScoreDescendingConsistent(s: seq<UseCase>)
    ensures TotalPreorderOn(ScoreDescending, s)
  {
  }

  /** `getSortedUseCases`: the project's use cases, highest score first. */
  function SortedUseCases(ucs: seq<UseCase>, project: Option<string>): seq<UseCase>
  {
    Sort(ProjectFiltered(ucs, project), ScoreDescending)
  }

  /** The sorted list is a permutation of the project's use cases with
      scores non-increasing. */
  lemma SortedUseCasesSpec(ucs: seq<UseCase>, project: Option<string>)
    ensures multiset(SortedUseCases(ucs, project)) == multiset(ProjectFiltered(ucs, project))
    ensures var r := SortedUseCases(ucs, project);
            forall i, j :: 0 <= i < j < |r| ==> r[i].score >= r[j].score
  {
    var s := ProjectFiltered(ucs, project);
    ScoreDescendingConsistent(s);
    SortSorted(s, ScoreDescending, s);
    var r := SortedUseCases(ucs, project);
    forall i, j | 0 <= i < j < |r|
      ensures r[i].score >= r[j].score
    {
      assert ScoreDescending(r[i], r[j]) <= 0.0;
    }
  }

  /** `filterUseCasesByStatus`: 'all' keeps the project's use cases, any
      other status exactly those with it. */
  function FilterByStatus(ucs: seq<UseCase>, project: Option<string>, status: string): (r: seq<UseCase>)
    ensures status == "all" ==> r == ProjectFiltered(ucs, project)
    ensures status != "all" ==>
              forall uc :: uc in r <==> uc in ProjectFiltered(ucs, project) && uc.status == status
  {
    var s := ProjectFiltered(ucs, project);
    if status == "all" then s else Filter(s, (uc: UseCase) => uc.status == status)
  }

  /** `getUseCaseById`: the first use case with the id. */
  function FindById(ucs: seq<UseCase>, id: string): (r: Option<UseCase>)
    ensures r.None? <==> forall i :: 0 <= i < |ucs| ==> ucs[i].id != id
    ensures r.Some? ==> r.value in ucs && r.value.id == id
    ensures r.Some? ==> exists i :: 0 <= i < |ucs| && ucs[i] == r.value && forall j :: 0 <= j < i ==> ucs[j].id != id
    decreases |ucs|
  {
    if ucs == [] then None
    else if ucs[0].id == id then Some(ucs[0])
    else
      var r := FindById(ucs[1..], id);
      assert forall i :: 1 <= i < |ucs| ==> ucs[i] == ucs[1..][i - 1];
      r
  }

  /** Whether a parameter's score is notably good or bad for the use case. */
  datatype Highlight = Good | Bad | Unremarkable

  /** With a preferred direction, a score of 4 or more is good and one of
      2 or less bad when high is preferred, the reverse when low is; other
      scores and parameters without a direction are unremarkable. */
  function Classify(direction: Option<Direction>, s: int): Highlight
  {
    if direction == Some(High) then (if s >= 4 then Good else if s <= 2 then Bad else Unremarkable)
    else if direction == Some(Low) then (if s <= 2 then Good else if s >= 4 then Bad else Unremarkable)
    else Unremarkable
  }

  lemma HighlightsSnoc(uc: UseCase, ps: seq<ScoreParameter>, i: nat)
    requires i < |ps|
    ensures Highlights(uc, ps[..i + 1])
            == Highlights(uc, ps[..i])[ps[i].id := Classify(ps[i].preferredDirection, if ps[i].id in uc.scores then uc.scores[ps[i].id] else 3)]
  {
    assert ps[..i + 1][..i] == ps[..i];
  }

  /** The highlight of every parameter (a missing score counts as 3); a
      later parameter with a repeated id overwrites an earlier one. */
  function Highlights(uc: UseCase, ps: seq<ScoreParameter>): (r: map<string, Highlight>)
    ensures r.Keys == Ids(ps)
    decreases |ps|
  {
    if ps == [] then map[]
    else
      var p := ps[|ps| - 1];
      IdsSnoc(ps);
      Highlights(uc, ps[..|ps| - 1])[p.id := Classify(p.preferredDirection, if p.id in uc.scores then uc.scores[p.id] else 3)]
  }

  /** Each parameter id is classified by the last parameter with that id,
      on the use case's score for it or 3 when it has none. */
  lemma {:induction false} HighlightOf(uc: UseCase, ps: seq<ScoreParameter>, k: nat)
    requires k < |ps| && forall j :: k < j < |ps| ==> ps[j].id != ps[k].id
    ensures Highlights(uc, ps)[ps[k].id]
            == Classify(ps[k].preferredDirection, if ps[k].id in uc.scores then uc.scores[ps[k].id] else 3)
    decreases |ps|
  {
    var init := ps[..|ps| - 1];
    if k < |ps| - 1 {
      assert init[k] == ps[k];
      assert forall j :: k < j < |init| ==> init[j] == ps[j];
      HighlightOf(uc, init, k);
    }
  }

  /** The map the store returns agrees with scoring: for a parameter that
      prefers high or low, its id is marked good exactly when the use
      case's normalized score for it is at least 4. */
  lemma HighlightGoodIffNormalizedHigh(uc: UseCase, ps: seq<ScoreParameter>, k: nat)
    requires k < |ps| && forall j :: k < j < |ps| ==> ps[j].id != ps[k].id
    requires ps[k].id in uc.scores
    requires ps[k].preferredDirection == Some(High) || ps[k].preferredDirection == Some(Low)
    ensures Highlights(uc, ps)[ps[k].id] == Good <==> Normalized(ps[k], uc.scores[ps[k].id]) >= 4
  {
    HighlightOf(uc, ps, k);
    ClassifyAgreesWithScoring(ps[k], uc.scores[ps[k].id]);
  }

  /** Highlights agree with scoring: preferring low scored s is classed as
      preferring high scored 6 - s, a missing score is never remarkable, and
      a good highlight means the normalized score is at least 4. */
  lemma ClassifyAgreesWithScoring(p: ScoreParameter, s: ScoreLevel)
    ensures Classify(Some(Low), s) == Classify(Some(High), 6 - s)
    ensures Classify(p.preferredDirection, 3) == Unremarkable
    ensures p.preferredDirection.Some? && p.preferredDirection != Some(Neutral) ==>
              (Classify(p.preferredDirection, s) == Good <==> Normalized(p, s) >= 4)
    ensures p.preferredDirection.None? || p.preferredDirection == Some(Neutral) ==>
              Classify(p.preferredDirection, s) == Unremarkable
  {
    match p.preferredDirection
    case Some(High) =>
      assert Normalized(p, s) == s;
    case Some(Low) =>
      assert Normalized(p, s) == 6 - s;
    case _ =>
  }

  /** A column of the table view. */
  datatype Column = Column(id: string, name: string, sortable: bool)

  /** The table's columns: title, one per parameter, score, status. */
  function Columns(ps: seq<ScoreParameter>): seq<Column>
  {
    [Column("title", "Title", true)]
    + seq(|ps|, i requires 0 <= i < |ps| => Column("scores." + ps[i].id, ps[i].name, true))
    + [Column("score", "Score", true), Column("status", "Status", true)]
  }

  lemma ColumnsSpec(ps: seq<ScoreParameter>)
    ensures var c := Columns(ps);
            && |c| == |ps| + 3
            && c[0].id == "title" && c[|c| - 2].id == "score" && c[|c| - 1].id == "status"
            && (forall i :: 0 <= i < |ps| ==> c[i + 1].id == "scores." + ps[i].id && c[i + 1].name == ps[i].name)
            && (forall col :: col in c ==> col.sortable)
  {
  }

  /** The collection held by the hook together with the parameter registry. */
  class UseCaseStore {
    var useCases: seq<UseCase>
    var parameters: seq<ScoreParameter>

    /** The initial state: the stored collection normalized, or the seed. */
    constructor(saved: Option<seq<StoredUseCase>>, seed: seq<UseCase>, ps: seq<ScoreParameter>)
      ensures useCases == Loaded(saved, seed, ps)
      ensures parameters == ps
    {
      useCases := Loaded(saved, seed, ps);
      parameters := ps;
    }

    /** `addUseCase`: appends the new use case under a fresh id. */
    method AddUseCase(form: FormData, id: string, now: int, project: Option<string>, team: Option<Team>)
      returns (added: UseCase)
      requires forall uc :: uc in useCases ==> uc.id != id
      modifies this
      ensures added == NewUseCase(form, id, now, project, team, parameters)
      ensures useCases == old(useCases) + [added]
      ensures parameters == old(parameters)
    {
      var scores := EnsureCompleteScores(form.scores, parameters);
      var score := CalculateScore(Some(scores), parameters);
      added := UseCase(
        id, form.title, form.description, form.impact, form.ease, scores, score,
        form.team, form.technologies, form.businessObjective, form.expectedOutcome,
        form.successCriteria, form.estimatedTime, form.estimatedResources,
        form.estimatedTimeInWeeks, form.estimatedFTE, form.roleAllocations,
        form.inRoadmap, form.roadmapPhase, form.roadmapOrder,
        form.status, now, now, OrElse(project, None),
        OrElse(form.teamId, TeamId(team)), OrElse(form.teamName, TeamName(team)));
      useCases := useCases + [added];
    }

    /** `updateUseCase`. */
    method UpdateUseCase(id: string, p: Patch, now: int)
      modifies this
      ensures useCases == Updated(old(useCases), id, p, now, parameters)
      ensures parameters == old(parameters)
    {
      useCases := Updated(useCases, id, p, now, parameters);
    }

    /** `updateParameters`: installs the new registry and rescores everything. */
    method UpdateParameters(ps: seq<ScoreParameter>, now: int)
      modifies this
      ensures parameters == ps
      ensures useCases == Recomputed(old(useCases), ps, now)
    {
      parameters := ps;
      useCases := Recomputed(useCases, ps, now);
    }

    /** `deleteUseCase`. */
    method DeleteUseCase(id: string)
      modifies this
      ensures useCases == Deleted(old(useCases), id)
      ensures parameters == old(parameters)
    {
      useCases := Deleted(useCases, id);
    }

    /** `getParameterHighlights`: one pass over the parameters. */
    method GetParameterHighlights(uc: UseCase) returns (highlights: map<string, Highlight>)
      ensures highlights == Highlights(uc, parameters)
    {
      var ps := parameters;
      highlights := map[];
      var i := 0;
      while i < |ps|
        invariant 0 <= i <= |ps|
        invariant highlights == Highlights(uc, ps[..i])
      {
        var p := ps[i];
        var score := if p.id in uc.scores then uc.scores[p.id] else 3;
        var h;
        if p.preferredDirection == Some(High) || p.preferredDirection == Some(Low) {
          if p.preferredDirection == Some(High) {
            h := if score >= 4 then Good else if score <= 2 then Bad else Unremarkable;
          } else {
            h := if score <= 2 then Good else if score >= 4 then Bad else Unremarkable;
          }
        } else {
          h := Unremarkable;
        }
        assert h == Classify(p.preferredDirection, score);
        HighlightsSnoc(uc, ps, i);
        highlights := highlights[p.id := h];
        assert highlights == Highlights(uc, ps[..i + 1]);
        i := i + 1;
      }
      assert ps[..i] == ps;
    }

    /** `getUseCaseColumns`: built by pushing one column per parameter. */
    method GetUseCaseColumns() returns (columns: seq<Column>)
      ensures columns == Columns(parameters)
    {
      columns := [Column("title", "Title", true)];
      var i := 0;
      while i < |parameters|
        invariant 0 <= i <= |parameters|
        invariant |columns| == i + 1 && columns[0] == Column("title", "Title", true)
        invariant forall j :: 0 <= j < i ==> columns[j + 1] == Column("scores." + parameters[j].id, parameters[j].name, true)
      {
        columns := columns + [Column("scores." + parameters[i].id, parameters[i].name, true)];
        i := i + 1;
      }
      columns := columns + [Column("score", "Score", true), Column("status", "Status", true)];
    }
  }
}
