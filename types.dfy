/** The records of the application: scoring parameters, use cases and the
    partial updates applied to them, and the default parameter registry.
    Optional text fields that the application only ever reads with a `''`
    fallback are plain strings, the empty string standing for "absent". */
module Types {
  import opened Seqs

  /** A per-parameter score: one of the integers 1 to 5. */
  type ScoreLevel = x: int | 1 <= x <= 5 witness 3

  /** Whether a high or a low score is preferable, or neither. */
  datatype Direction = High | Low | Neutral

  /** The seven roadmap columns: three timeline phases and four quarters. */
  datatype Phase = ShortTerm | MidTerm | LongTerm | Q1 | Q2 | Q3 | Q4
  {
    predicate IsTimeline()
    {
      ShortTerm? || MidTerm? || LongTerm?
    }

    predicate IsQuarterly()
    {
      Q1? || Q2? || Q3? || Q4?
    }

    /** The identifier the phase is stored and dragged under. */
    function Tag(): string
    {
      match this
      case ShortTerm => "short-term"
      case MidTerm => "mid-term"
      case LongTerm => "long-term"
      case Q1 => "quarterly-q1"
      case Q2 => "quarterly-q2"
      case Q3 => "quarterly-q3"
      case Q4 => "quarterly-q4"
    }
  }

  const TimelinePhases: seq<Phase> := [ShortTerm, MidTerm, LongTerm]
  const QuarterlyPhases: seq<Phase> := [Q1, Q2, Q3, Q4]

  /** Every phase is exactly one of the timeline or the quarterly phases,
      and distinct phases carry distinct identifiers. */
  lemma PhaseKinds(p: Phase, q: Phase)
    ensures p.IsTimeline() != p.IsQuarterly()
    ensures p.IsTimeline() <==> p in TimelinePhases
    ensures p.IsQuarterly() <==> p in QuarterlyPhases
    ensures p.Tag() == q.Tag() ==> p == q
  {
  }

  /** A parameter use cases are scored on. */
  datatype ScoreParameter = ScoreParameter(
    id: string,
    name: string,
    description: string,
    weight: real,
    defaultValue: Option<ScoreLevel>,
    preferredDirection: Option<Direction>)

  /** A share of a full-time equivalent assigned to a role. */
  datatype RoleAllocation = RoleAllocation(role: string, fte: real)

  /** Scores by parameter id. */
  type Scores = map<string, ScoreLevel>

  /** A use case. Dates are instants in milliseconds. */
  datatype UseCase = UseCase(
    id: string,
    title: string,
    description: string,
    impact: string,
    ease: string,
    scores: Scores,
    score: real,
    team: seq<string>,
    technologies: seq<string>,
    businessObjective: string,
    expectedOutcome: string,
    successCriteria: string,
    estimatedTime: string,
    estimatedResources: string,
    estimatedTimeInWeeks: Option<int>,
    estimatedFTE: Option<real>,
    roleAllocations: Option<seq<RoleAllocation>>,
    inRoadmap: Option<bool>,
    roadmapPhase: Option<Phase>,
    roadmapOrder: Option<int>,
    status: string,
    createdAt: int,
    updatedAt: int,
    projectId: Option<string>,
    teamId: Option<string>,
    teamName: Option<string>)

  /** What the use-case form submits for a new use case. */
  datatype FormData = FormData(
    title: string,
    description: string,
    impact: string,
    ease: string,
    scores: Option<Scores>,
    team: seq<string>,
    technologies: seq<string>,
    businessObjective: string,
    expectedOutcome: string,
    successCriteria: string,
    estimatedTime: string,
    estimatedResources: string,
    status: string,
    estimatedTimeInWeeks: Option<int>,
    estimatedFTE: Option<real>,
    roleAllocations: Option<seq<RoleAllocation>>,
    inRoadmap: Option<bool>,
    roadmapPhase: Option<Phase>,
    roadmapOrder: Option<int>,
    teamId: Option<string>,
    teamName: Option<string>)

  /** A partial update of a use case: the fields that are present replace
      the use case's own, as an object spread does. */
  datatype Patch = Patch(
    title: Option<string>,
    description: Option<string>,
    impact: Option<string>,
    ease: Option<string>,
    scores: Option<Scores>,
    team: Option<seq<string>>,
    technologies: Option<seq<string>>,
    businessObjective: Option<string>,
    expectedOutcome: Option<string>,
    successCriteria: Option<string>,
    estimatedTime: Option<string>,
    estimatedResources: Option<string>,
    status: Option<string>,
    estimatedTimeInWeeks: Option<int>,
    estimatedFTE: Option<real>,
    roleAllocations: Option<seq<RoleAllocation>>,
    inRoadmap: Option<bool>,
    roadmapPhase: Option<Phase>,
    roadmapOrder: Option<int>,
    teamId: Option<string>,
    teamName: Option<string>)

  /** The patch that changes nothing. */
  const NoChange: Patch := Patch(None, None, None, None, None, None, None, None, None, None, None,
                                 None, None, None, None, None, None, None, None, None, None)

  function Override<T>(field: Option<T>, current: T): T
  {
    field.GetOr(current)
  }

  function OverrideOpt<T>(field: Option<T>, current: Option<T>): Option<T>
  {
    if field.Some? then field else current
  }

  /** `{ ...uc, ...patch }`. */
  function ApplyPatch(uc: UseCase, p: Patch): (r: UseCase)
    ensures r.id == uc.id && r.score == uc.score && r.createdAt == uc.createdAt && r.updatedAt == uc.updatedAt
    ensures r.projectId == uc.projectId
    ensures p.status.Some? ==> r.status == p.status.value
    ensures p.status.None? ==> r.status == uc.status
    ensures p.scores.None? ==> r.scores == uc.scores
  {
    uc.(
      title := Override(p.title, uc.title),
      description := Override(p.description, uc.description),
      impact := Override(p.impact, uc.impact),
      ease := Override(p.ease, uc.ease),
      scores := Override(p.scores, uc.scores),
      team := Override(p.team, uc.team),
      technologies := Override(p.technologies, uc.technologies),
      businessObjective := Override(p.businessObjective, uc.businessObjective),
      expectedOutcome := Override(p.expectedOutcome, uc.expectedOutcome),
      successCriteria := Override(p.successCriteria, uc.successCriteria),
      estimatedTime := Override(p.estimatedTime, uc.estimatedTime),
      estimatedResources := Override(p.estimatedResources, uc.estimatedResources),
      status := Override(p.status, uc.status),
      estimatedTimeInWeeks := OverrideOpt(p.estimatedTimeInWeeks, uc.estimatedTimeInWeeks),
      estimatedFTE := OverrideOpt(p.estimatedFTE, uc.estimatedFTE),
      roleAllocations := OverrideOpt(p.roleAllocations, uc.roleAllocations),
      inRoadmap := OverrideOpt(p.inRoadmap, uc.inRoadmap),
      roadmapPhase := OverrideOpt(p.roadmapPhase, uc.roadmapPhase),
      roadmapOrder := OverrideOpt(p.roadmapOrder, uc.roadmapOrder),
      teamId := OverrideOpt(p.teamId, uc.teamId),
      teamName := OverrideOpt(p.teamName, uc.teamName))
  }

  /** The empty patch is the identity, and a patch applied twice has no further effect. */
  lemma ApplyPatchProperties(uc: UseCase, p: Patch)
    ensures ApplyPatch(uc, NoChange) == uc
    ensures ApplyPatch(ApplyPatch(uc, p), p) == ApplyPatch(uc, p)
  {
  }

  /** JavaScript's `a || b` on optional strings: the empty string is falsy. */
  function OrElse(a: Option<string>, b: Option<string>): (r: Option<string>)
    ensures a.Some? && a.value != "" ==> r == a
    ensures (a.None? || a.value == "") ==> r == b
  {
    if a.Some? && a.value != "" then a else b
  }

  /** A use case counts as on the roadmap only when its optional flag is
      set to true: an absent flag is falsy, as in `filter(uc => uc.inRoadmap)`. */
  predicate OnRoadmap(uc: UseCase)
  {
    uc.inRoadmap == Some(true)
  }

  /** The team the user is working in, when there is one. */
  datatype Team = Team(id: string, name: string)

  function TeamId(t: Option<Team>): Option<string>
  {
    if t.Some? then Some(t.value.id) else None
  }

  function TeamName(t: Option<Team>): Option<string>
  {
    if t.Some? then Some(t.value.name) else None
  }

  /** The ids of a parameter list. */
  function Ids(ps: seq<ScoreParameter>): (r: set<string>)
    ensures forall i :: 0 <= i < |ps| ==> ps[i].id in r
  {
    set i | 0 <= i < |ps| :: ps[i].id
  }

  /** The ids of a list are those of all but its last element and the last one's. */
  lemma IdsSnoc(ps: seq<ScoreParameter>)
    requires ps != []
    ensures Ids(ps) == Ids(ps[..|ps| - 1]) + {ps[|ps| - 1].id}
  {
    var init := ps[..|ps| - 1];
    forall k | k in Ids(ps)
      ensures k in Ids(init) + {ps[|ps| - 1].id}
    {
      var i :| 0 <= i < |ps| && ps[i].id == k;
      if i < |ps| - 1 {
        assert init[i] == ps[i];
      }
    }
    forall k | k in Ids(init)
      ensures k in Ids(ps)
    {
      var i :| 0 <= i < |init| && init[i].id == k;
      assert ps[i] == init[i];
    }
  }

  predicate DistinctIds(ps: seq<ScoreParameter>)
  {
    forall i, j :: 0 <= i < j < |ps| ==> ps[i].id != ps[j].id
  }

  /** The registry a project starts with. */
  const DefaultParameters: seq<ScoreParameter> := [
    ScoreParameter("impact", "Impact",
      "How valuable is this use case for the business?", 1.0, Some(3), Some(High)),
    ScoreParameter("easeOfImplementation", "Ease of Implementation",
      "How simple is it to develop and deploy?", 0.8, Some(3), Some(High)),
    ScoreParameter("dataAvailability", "Data Availability",
      "Is the required data accessible, clean, and complete?", 0.7, Some(3), Some(High)),
    ScoreParameter("businessValue", "Business Value",
      "What is the potential financial or strategic return?", 0.9, Some(3), Some(High)),
    ScoreParameter("technicalFeasibility", "Technical Feasibility",
      "How challenging is the development from a technical standpoint?", 0.8, Some(3), Some(High)),
    ScoreParameter("maintainability", "Maintainability",
      "Can this solution be easily maintained and scaled over time?", 0.6, Some(3), Some(High)),
    ScoreParameter("ethicalConsiderations", "Ethical Considerations",
      "Are there any legal, privacy, or ethical concerns?", 0.7, Some(3), Some(Low))
  ]

  /** The default registry: seven parameters with distinct ids, each
      defaulting to 3 with a weight between 0.6 and 1.0; only the ethical
      considerations prefer a low score. */
  lemma DefaultParametersShape()
    ensures |DefaultParameters| == 7
    ensures DistinctIds(DefaultParameters)
    ensures forall p :: p in DefaultParameters ==> p.defaultValue == Some(3) && 0.6 <= p.weight <= 1.0
    ensures forall p :: p in DefaultParameters ==>
              (p.preferredDirection == Some(Low) <==> p.id == "ethicalConsiderations")
    ensures forall p :: p in DefaultParameters ==> p.preferredDirection != Some(Neutral) && p.preferredDirection.Some?
  {
    DefaultIdsDistinct();
    DefaultDirections();
  }

  lemma DefaultDirections()
    ensures forall p :: p in DefaultParameters ==>
              (p.preferredDirection == Some(Low) <==> p.id == "ethicalConsiderations")
    ensures forall p :: p in DefaultParameters ==> p.preferredDirection != Some(Neutral) && p.preferredDirection.Some?
  {
  }

  lemma DefaultIdsDistinct()
    ensures DistinctIds(DefaultParameters)
  {
  }
}
