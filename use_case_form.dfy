/** The use-case form: its initial data, the handlers that edit it (legacy
    impact and ease levels kept in step with their scores, team and
    technology tags), the suggestion panel's visibility, choosing a
    suggestion as a template, and the submission. */
module UseCaseForm {
  import opened Seqs
  import opened Types
  import opened Text
  import opened ScoreUtils
  import opened UseCases

  const ImpactKey: string := "impact"
  const EaseKey: string := "easeOfImplementation"
  const DataAvailabilityKey: string := "dataAvailability"
  const BusinessValueKey: string := "businessValue"
  const TechnicalFeasibilityKey: string := "technicalFeasibility"
  const MaintainabilityKey: string := "maintainability"
  const EthicalConsiderationsKey: string := "ethicalConsiderations"

  /** The seven scores the form always carries. */
  predicate IsFormScoreKey(k: string)
  {
    || k == ImpactKey || k == EaseKey || k == DataAvailabilityKey || k == BusinessValueKey
    || k == TechnicalFeasibilityKey || k == MaintainabilityKey || k == EthicalConsiderationsKey
  }

  /** `initialData?.scores?.[k] || 3`: every score level is non-zero. */
  function InitialScore(initial: Option<UseCase>, k: string): ScoreLevel
  {
    if initial.Some? && k in initial.value.scores then initial.value.scores[k] else 3
  }

  function DefaultFormScores(initial: Option<UseCase>): Scores
  {
    map[ImpactKey := InitialScore(initial, ImpactKey),
        EaseKey := InitialScore(initial, EaseKey),
        DataAvailabilityKey := InitialScore(initial, DataAvailabilityKey),
        BusinessValueKey := InitialScore(initial, BusinessValueKey),
        TechnicalFeasibilityKey := InitialScore(initial, TechnicalFeasibilityKey),
        MaintainabilityKey := InitialScore(initial, MaintainabilityKey),
        EthicalConsiderationsKey := InitialScore(initial, EthicalConsiderationsKey)]
  }

  /** The default scores hold exactly the seven keys; each is the initial
      use case's score when it has one, and 3 otherwise. */
  lemma DefaultFormScoresSpec(initial: Option<UseCase>)
    ensures forall k :: k in DefaultFormScores(initial) <==> IsFormScoreKey(k)
    ensures forall k :: k in DefaultFormScores(initial) && initial.Some? && k in initial.value.scores ==>
              DefaultFormScores(initial)[k] == initial.value.scores[k]
    ensures forall k :: k in DefaultFormScores(initial) && (initial.None? || k !in initial.value.scores) ==>
              DefaultFormScores(initial)[k] == 3
  {
  }

  /** `s || fallback` on a string. */
  function StringOr(s: string, fallback: string): string
  {
    if s != "" then s else fallback
  }

  /** The form's starting data: the initial use case's fields, or empty
      ones; impact and ease "medium" and status "backlog" by default; the
      team the use case names, or else the current team. */
  function InitialForm(initial: Option<UseCase>, team: Option<Team>): FormData
  {
    if initial.None? then
      FormData("", "", "medium", "medium", Some(DefaultFormScores(initial)), [], [], "", "", "", "", "",
               "backlog", None, None, Some([]), None, None, None, TeamId(team), TeamName(team))
    else
      var uc := initial.value;
      FormData(uc.title, uc.description, StringOr(uc.impact, "medium"), StringOr(uc.ease, "medium"),
               Some(DefaultFormScores(initial)), uc.team, uc.technologies, uc.businessObjective,
               uc.expectedOutcome, uc.successCriteria, uc.estimatedTime, uc.estimatedResources,
               StringOr(uc.status, "backlog"), None, None, Some(uc.roleAllocations.GetOr([])), None, None, None,
               OrElse(uc.teamId, TeamId(team)), OrElse(uc.teamName, TeamName(team)))
  }

  /** The hook's starting data carries no team at all. */
  function HookInitialForm(initial: Option<UseCase>): FormData
  {
    InitialForm(initial, None).(teamId := None, teamName := None)
  }

  /** A new form starts from the seven default scores at 3, and the
      component's takes the current team; an edited use case keeps its
      own team. */
  lemma InitialFormSpec(initial: Option<UseCase>, team: Option<Team>)
    ensures initial.None? ==> InitialForm(initial, team).scores == Some(DefaultFormScores(None))
    ensures initial.None? && team.Some? ==> InitialForm(initial, team).teamId == Some(team.value.id)
    ensures initial.Some? && initial.value.teamId.Some? && initial.value.teamId.value != "" ==>
              InitialForm(initial, team).teamId == initial.value.teamId
    ensures initial.Some? ==> InitialForm(initial, team).title == initial.value.title
    ensures InitialForm(initial, team).status != ""
    ensures HookInitialForm(initial).teamId.None?
  {
  }

  /** `handleSelectChange`'s score for a level: high 5, medium 3, anything else 1. */
  function SelectScore(level: string): ScoreLevel
  {
    if level == "high" then 5 else if level == "medium" then 3 else 1
  }

  /** `handleScoreChange`'s level for a score: 4 and up high, 2 and up
      medium, else low. */
  function LevelOfScore(v: ScoreLevel): string
  {
    if v >= 4 then "high" else if v >= 2 then "medium" else "low"
  }

  /** The two conversions agree on the three levels and on the scores 1,
      3 and 5, and only there: a 4 reads back as 5 and a 2 as 3. */
  lemma LevelScoreRoundTrip(level: string, v: ScoreLevel)
    ensures level == "high" || level == "medium" || level == "low" ==> LevelOfScore(SelectScore(level)) == level
    ensures SelectScore(LevelOfScore(v)) == v <==> v == 1 || v == 3 || v == 5
    ensures SelectScore(LevelOfScore(4)) == 5 && SelectScore(LevelOfScore(2)) == 3
    ensures LevelToScore(LevelOfScore(v)) == SelectScore(LevelOfScore(v))
  {
  }

  function ScoresOf(f: FormData): Scores
  {
    f.scores.GetOr(map[])
  }

  /** `handleInputChange` and the verbatim branch of `handleSelectChange`:
      one text field set by name; any other name leaves the modelled
      fields as they are. */
  function WithText(f: FormData, name: string, value: string): FormData
  {
    match name
    case "title" => f.(title := value)
    case "description" => f.(description := value)
    case "businessObjective" => f.(businessObjective := value)
    case "expectedOutcome" => f.(expectedOutcome := value)
    case "successCriteria" => f.(successCriteria := value)
    case "estimatedTime" => f.(estimatedTime := value)
    case "estimatedResources" => f.(estimatedResources := value)
    case "status" => f.(status := value)
    case _ => f
  }

  /** `handleSelectChange`. */
  function WithSelect(f: FormData, value: string, field: string): FormData
  {
    if field == "impact" then f.(impact := value, scores := Some(ScoresOf(f)[ImpactKey := SelectScore(value)]))
    else if field == "ease" then f.(ease := value, scores := Some(ScoresOf(f)[EaseKey := SelectScore(value)]))
    else WithText(f, field, value)
  }

  /** Choosing an impact or ease level sets the level and its score and
      leaves every other score and field alone. */
  lemma SelectChangeSpec(f: FormData, value: string)
    ensures var r := WithSelect(f, value, "impact");
            && r == f.(impact := value, scores := r.scores)
            && ScoresOf(r)[ImpactKey] == SelectScore(value)
            && forall k :: k != ImpactKey ==> (k in ScoresOf(r) <==> k in ScoresOf(f)) && (k in ScoresOf(f) ==> ScoresOf(r)[k] == ScoresOf(f)[k])
    ensures var r := WithSelect(f, value, "ease");
            && r == f.(ease := value, scores := r.scores)
            && ScoresOf(r)[EaseKey] == SelectScore(value)
            && forall k :: k != EaseKey ==> (k in ScoresOf(r) <==> k in ScoresOf(f)) && (k in ScoresOf(f) ==> ScoresOf(r)[k] == ScoresOf(f)[k])
    ensures WithSelect(f, value, "status") == f.(status := value)
  {
  }

  /** `handleScoreChange`. */
  function WithScore(f: FormData, parameter: string, value: ScoreLevel): FormData
  {
    var scores := Some(ScoresOf(f)[parameter := value]);
    if parameter == ImpactKey then f.(impact := LevelOfScore(value), scores := scores)
    else if parameter == EaseKey then f.(ease := LevelOfScore(value), scores := scores)
    else f.(scores := scores)
  }

  /** A score change sets that score; on impact or ease it also sets the
      legacy level the score implies; nothing else changes. Choosing that
      level afterwards keeps the score exactly when it is 1, 3 or 5. */
  lemma ScoreChangeSpec(f: FormData, parameter: string, value: ScoreLevel)
    ensures var r := WithScore(f, parameter, value);
            && ScoresOf(r)[parameter] == value
            && (forall k :: k != parameter ==> (k in ScoresOf(r) <==> k in ScoresOf(f)) && (k in ScoresOf(f) ==> ScoresOf(r)[k] == ScoresOf(f)[k]))
            && (parameter == ImpactKey ==> r == f.(impact := LevelOfScore(value), scores := r.scores))
            && (parameter == EaseKey ==> r == f.(ease := LevelOfScore(value), scores := r.scores))
            && (parameter != ImpactKey && parameter != EaseKey ==> r == f.(scores := r.scores))
    ensures var r := WithScore(f, ImpactKey, value);
            WithSelect(r, r.impact, "impact") == r <==> value == 1 || value == 3 || value == 5
  {
    var r := WithScore(f, ImpactKey, value);
    LevelScoreRoundTrip(r.impact, value);
    if value == 1 || value == 3 || value == 5 {
      assert ScoresOf(r)[ImpactKey := SelectScore(LevelOfScore(value))] == ScoresOf(r);
    } else {
      assert ScoresOf(WithSelect(r, r.impact, "impact"))[ImpactKey] == SelectScore(LevelOfScore(value));
    }
  }

  /** `addTeam` / `addTechnology`: the trimmed input is appended and the
      input cleared when it is non-empty and not yet listed; otherwise
      nothing changes. */
  function AddTag(list: seq<string>, input: string): (seq<string>, string)
  {
    var t := Trim(input);
    if t != "" && t !in list then (list + [t], "") else (list, input)
  }

  /** `removeTeam` / `removeTechnology`: every equal entry dropped. */
  function RemoveTag(list: seq<string>, tag: string): seq<string>
  {
    Filter(list, (t: string) => t != tag)
  }

  predicate NoDuplicates(list: seq<string>)
  {
    forall i, j :: 0 <= i < j < |list| ==> list[i] != list[j]
  }

  /** Adding never lists a tag twice nor an empty or untrimmed one, and
      removing what was just added restores the list. */
  lemma {:induction false} AddTagSpec(list: seq<string>, input: string)
    ensures var (r, rest) := AddTag(list, input);
            && (r != list <==> !IsBlank(input) && Trim(input) !in list)
            && (r != list ==> r == list + [Trim(input)] && rest == "" && Trim(Trim(input)) == Trim(input))
            && (r == list ==> rest == input)
            && (NoDuplicates(list) ==> NoDuplicates(r))
            && (r != list ==> RemoveTag(r, Trim(input)) == list)
  {
    TrimEmptyIffBlank(input);
    TrimIdempotent(input);
    var t := Trim(input);
    if t != "" && t !in list {
      assert |list + [t]| != |list|;
      RemovedAppended(list, t);
    }
  }

  lemma {:induction false} RemovedAppended(list: seq<string>, t: string)
    requires t !in list
    ensures RemoveTag(list + [t], t) == list
  {
    FilterConcat(list, [t], (x: string) => x != t);
    FilterKeepsAll(list, (x: string) => x != t);
    assert Filter([t], (x: string) => x != t) == [];
  }

  /** Removing leaves exactly the other entries, in order. */
  lemma RemoveTagSpec(list: seq<string>, tag: string)
    ensures tag !in RemoveTag(list, tag)
    ensures forall t :: t in RemoveTag(list, tag) <==> t in list && t != tag
    ensures IsSubsequence(RemoveTag(list, tag), list)
    ensures tag !in list ==> RemoveTag(list, tag) == list
  {
    FilterIsSubsequence(list, (t: string) => t != tag);
    if tag !in list {
      FilterKeepsAll(list, (t: string) => t != tag);
    }
  }

  /** `handleSuggestionSelect`'s new form data: the template's content,
      titled as a copy, in the backlog, with no team of its own. */
  function FromTemplate(uc: UseCase): FormData
  {
    FormData(uc.title + " (Copy)", uc.description, uc.impact, uc.ease, Some(uc.scores), uc.team, uc.technologies,
             uc.businessObjective, uc.expectedOutcome, uc.successCriteria, uc.estimatedTime, uc.estimatedResources,
             "backlog", None, None, Some(uc.roleAllocations.GetOr([])), None, None, None, None, None)
  }

  /** The copy's title extends the template's, which it never equals. */
  lemma FromTemplateSpec(uc: UseCase)
    ensures var f := FromTemplate(uc);
            && uc.title <= f.title && f.title != uc.title && |f.title| == |uc.title| + 7
            && f.status == "backlog" && f.scores == Some(uc.scores)
            && f.team == uc.team && f.technologies == uc.technologies
            && f.teamId.None? && f.teamName.None?
  {
    assert (uc.title + " (Copy)")[..|uc.title|] == uc.title;
  }

  /** Choosing a template while not editing, from a form other than that
      template's copy, leaves the panel shown: the copy's title is always
      long enough to be relevant. */
  lemma SelectionReshowsAsWritten(before: FormData, uc: UseCase)
    requires Watched(before) != Watched(FromTemplate(uc))
    ensures AfterEffect(before, FromTemplate(uc), false, false)
  {
    FromTemplateSpec(uc);
  }

  /** The form has something to base suggestions on. */
  predicate Relevant(f: FormData)
  {
    |f.title| > 3 || |f.description| > 10 || |f.team| > 0 || |f.technologies| > 0
  }

  /** The fields the visibility effect watches. */
  function Watched(f: FormData): (string, string, seq<string>, seq<string>)
  {
    (f.title, f.description, f.team, f.technologies)
  }

  /** The visibility after a change: the effect runs when a watched field
      changed, hiding the panel while editing and otherwise showing it
      exactly when the form is relevant. */
  function AfterEffect(before: FormData, after: FormData, shown: bool, editing: bool): bool
  {
    if Watched(before) == Watched(after) then shown else !editing && Relevant(after)
  }

  /** The panel is shown exactly when not editing and the form is relevant,
      and every change keeps that so. */
  lemma AfterEffectKeepsInStep(before: FormData, after: FormData, shown: bool, editing: bool)
    requires shown == (!editing && Relevant(before))
    ensures AfterEffect(before, after, shown, editing) == (!editing && Relevant(after))
  {
  }

  /** `{ ...formData, teamId: formData.teamId || currentTeam?.id, ... }`. */
  function WithTeamFallback(f: FormData, team: Option<Team>): FormData
  {
    f.(teamId := OrElse(f.teamId, TeamId(team)), teamName := OrElse(f.teamName, TeamName(team)))
  }

  /** The submitted form data as the partial update handed to `updateUseCase`. */
  function FormPatch(f: FormData): Patch
  {
    Patch(Some(f.title), Some(f.description), Some(f.impact), Some(f.ease), f.scores, Some(f.team),
          Some(f.technologies), Some(f.businessObjective), Some(f.expectedOutcome), Some(f.successCriteria),
          Some(f.estimatedTime), Some(f.estimatedResources), Some(f.status), f.estimatedTimeInWeeks,
          f.estimatedFTE, f.roleAllocations, f.inRoadmap, f.roadmapPhase, f.roadmapOrder, f.teamId, f.teamName)
  }

  /** What a submit asks of the collection. */
  datatype Submission = UpdateSent(id: string, patch: Patch) | AddSent(form: FormData)

  /** `handleSubmit`: an update of the initial use case when editing one,
      otherwise an addition. */
  function SubmissionOf(f: FormData, editing: bool, initial: Option<UseCase>): Submission
  {
    if editing && initial.Some? then UpdateSent(initial.value.id, FormPatch(f)) else AddSent(f)
  }

  /** The update goes to the edited use case; a form without a team takes
      the current one; a template's copy thus lands in the current team. */
  lemma SubmissionSpec(f: FormData, editing: bool, initial: Option<UseCase>, team: Option<Team>, uc: UseCase)
    ensures SubmissionOf(f, editing, initial).UpdateSent? <==> editing && initial.Some?
    ensures SubmissionOf(f, editing, initial).UpdateSent? ==> SubmissionOf(f, editing, initial).id == initial.value.id
    ensures team.Some? ==> WithTeamFallback(FromTemplate(uc), team).teamId == Some(team.value.id)
    ensures f.teamId.Some? && f.teamId.value != "" ==> WithTeamFallback(f, team).teamId == f.teamId
  {
  }

  /** Submitting an impact score through the form stores, as the update is
      written, the score of the level derived from it: 4 is stored as 5
      and 2 as 3. The corrected update keeps the chosen score. */
  lemma SubmittedImpactScore(f: FormData, v: ScoreLevel, team: Option<Team>, uc: UseCase, ps: seq<ScoreParameter>)
    ensures var p := FormPatch(WithTeamFallback(WithScore(f, ImpactKey, v), team));
            && UpdatedScoresAsWritten(uc, p, ps)[ImpactKey] == SelectScore(LevelOfScore(v))
            && UpdatedScores(uc, p, ps)[ImpactKey] == v
    ensures var p := FormPatch(WithTeamFallback(WithScore(f, ImpactKey, 4), team));
            UpdatedScoresAsWritten(uc, p, ps)[ImpactKey] == 5
    ensures var p := FormPatch(WithTeamFallback(WithScore(f, ImpactKey, 2), team));
            UpdatedScoresAsWritten(uc, p, ps)[ImpactKey] == 3
  {
    forall w: ScoreLevel
      ensures var p := FormPatch(WithTeamFallback(WithScore(f, ImpactKey, w), team));
              && UpdatedScoresAsWritten(uc, p, ps)[ImpactKey] == SelectScore(LevelOfScore(w))
              && UpdatedScores(uc, p, ps)[ImpactKey] == w
    {
      SubmittedImpactScoreAt(f, w, team, uc, ps);
    }
  }

  lemma SubmittedImpactScoreAt(f: FormData, v: ScoreLevel, team: Option<Team>, uc: UseCase, ps: seq<ScoreParameter>)
    ensures var p := FormPatch(WithTeamFallback(WithScore(f, ImpactKey, v), team));
            && UpdatedScoresAsWritten(uc, p, ps)[ImpactKey] == SelectScore(LevelOfScore(v))
            && UpdatedScores(uc, p, ps)[ImpactKey] == v
  {
    var p := FormPatch(WithTeamFallback(WithScore(f, ImpactKey, v), team));
    var m := ScoresOf(f)[ImpactKey := v];
    assert p.scores == Some(m) && p.impact == Some(LevelOfScore(v));
    var base := EnsureComplete(p.scores, ps);
    assert base[ImpactKey] == v;
    LevelScoreRoundTrip(LevelOfScore(v), v);
  }

  /** The use cases offered as suggestions: all but the one being edited. */
  function SuggestionCandidates(ucs: seq<UseCase>, editing: bool, initial: Option<UseCase>): seq<UseCase>
  {
    if editing && initial.Some? then Filter(ucs, (uc: UseCase) => uc.id != initial.value.id) else ucs
  }

  lemma SuggestionCandidatesSpec(ucs: seq<UseCase>, editing: bool, initial: Option<UseCase>)
    ensures editing && initial.Some? ==>
              forall uc :: uc in SuggestionCandidates(ucs, editing, initial) <==> uc in ucs && uc.id != initial.value.id
    ensures !(editing && initial.Some?) ==> SuggestionCandidates(ucs, editing, initial) == ucs
    ensures IsSubsequence(SuggestionCandidates(ucs, editing, initial), ucs)
  {
    if editing && initial.Some? {
      FilterIsSubsequence(ucs, (uc: UseCase) => uc.id != initial.value.id);
    } else {
      FilterKeepsAll(ucs, (uc: UseCase) => true);
      FilterIsSubsequence(ucs, (uc: UseCase) => true);
    }
  }

  /** The form's state. `fromHook` selects the hook's variant (no team,
      no fallback at submit, an optional completion callback) over the
      component's. Submissions and completion calls are recorded. */
  class FormState {
    const editing: bool
    const initial: Option<UseCase>
    const currentTeam: Option<Team>
    const fromHook: bool
    const hasOnComplete: bool
    var form: FormData
    var teamInput: string
    var techInput: string
    var showSuggestions: bool
    var submissions: seq<Submission>
    var completions: nat

    /** While editing the panel stays hidden. */
    ghost predicate Valid()
      reads this
    {
      editing ==> !showSuggestions
    }

    /** The state after the first render and its effect. */
    constructor(initial: Option<UseCase>, editing: bool, currentTeam: Option<Team>, fromHook: bool, hasOnComplete: bool)
      requires !fromHook ==> hasOnComplete
      ensures Valid()
      ensures this.initial == initial && this.editing == editing && this.currentTeam == currentTeam
      ensures this.fromHook == fromHook && this.hasOnComplete == hasOnComplete
      ensures form == (if fromHook then HookInitialForm(initial) else InitialForm(initial, currentTeam))
      ensures teamInput == "" && techInput == ""
      ensures showSuggestions == (!editing && Relevant(form))
      ensures submissions == [] && completions == 0
    {
      this.initial := initial;
      this.editing := editing;
      this.currentTeam := currentTeam;
      this.fromHook := fromHook;
      this.hasOnComplete := hasOnComplete;
      var f := if fromHook then HookInitialForm(initial) else InitialForm(initial, currentTeam);
      form := f;
      teamInput := "";
      techInput := "";
      showSuggestions := !editing && Relevant(f);
      submissions := [];
      completions := 0;
    }

    /** The form replaced, followed by the visibility effect. */
    method SetForm(f: FormData)
      requires Valid()
      modifies this
      ensures Valid()
      ensures form == f
      ensures showSuggestions == AfterEffect(old(form), f, old(showSuggestions), editing)
      ensures teamInput == old(teamInput) && techInput == old(techInput)
      ensures submissions == old(submissions) && completions == old(completions)
    {
      var before := form;
      form := f;
      if Watched(before) != Watched(f) {
        showSuggestions := !editing && Relevant(f);
      }
    }

    method HandleInputChange(name: string, value: string)
      requires Valid()
      modifies this
      ensures Valid()
      ensures form == WithText(old(form), name, value)
      ensures showSuggestions == AfterEffect(old(form), form, old(showSuggestions), editing)
      ensures teamInput == old(teamInput) && techInput == old(techInput)
      ensures submissions == old(submissions) && completions == old(completions)
    {
      SetForm(WithText(form, name, value));
    }

    method HandleSelectChange(value: string, field: string)
      requires Valid()
      modifies this
      ensures Valid()
      ensures form == WithSelect(old(form), value, field)
      ensures showSuggestions == AfterEffect(old(form), form, old(showSuggestions), editing)
      ensures teamInput == old(teamInput) && techInput == old(techInput)
      ensures submissions == old(submissions) && completions == old(completions)
    {
      SetForm(WithSelect(form, value, field));
    }

    method HandleScoreChange(parameter: string, value: ScoreLevel)
      requires Valid()
      modifies this
      ensures Valid()
      ensures form == WithScore(old(form), parameter, value)
      ensures showSuggestions == old(showSuggestions)
      ensures teamInput == old(teamInput) && techInput == old(techInput)
      ensures submissions == old(submissions) && completions == old(completions)
    {
      SetForm(WithScore(form, parameter, value));
    }

    method UpdateRoleAllocations(allocations: seq<RoleAllocation>)
      requires Valid()
      modifies this
      ensures Valid()
      ensures form == old(form).(roleAllocations := Some(allocations))
      ensures showSuggestions == old(showSuggestions)
      ensures teamInput == old(teamInput) && techInput == old(techInput)
      ensures submissions == old(submissions) && completions == old(completions)
    {
      SetForm(form.(roleAllocations := Some(allocations)));
    }

    method SetTeamInput(text: string)
      modifies this
      ensures teamInput == text
      ensures form == old(form) && techInput == old(techInput) && showSuggestions == old(showSuggestions)
      ensures submissions == old(submissions) && completions == old(completions)
    {
      teamInput := text;
    }

    method SetTechInput(text: string)
      modifies this
      ensures techInput == text
      ensures form == old(form) && teamInput == old(teamInput) && showSuggestions == old(showSuggestions)
      ensures submissions == old(submissions) && completions == old(completions)
    {
      techInput := text;
    }

    method AddTeam()
      requires Valid()
      modifies this
      ensures Valid()
      ensures (form.team, teamInput) == AddTag(old(form.team), old(teamInput))
      ensures form == old(form).(team := form.team)
      ensures showSuggestions == AfterEffect(old(form), form, old(showSuggestions), editing)
      ensures techInput == old(techInput)
      ensures submissions == old(submissions) && completions == old(completions)
    {
      var t := Trim(teamInput);
      if t != "" && t !in form.team {
        SetForm(form.(team := form.team + [t]));
        teamInput := "";
      }
    }

    method RemoveTeam(tag: string)
      requires Valid()
      modifies this
      ensures Valid()
      ensures form == old(form).(team := RemoveTag(old(form.team), tag))
      ensures showSuggestions == AfterEffect(old(form), form, old(showSuggestions), editing)
      ensures teamInput == old(teamInput) && techInput == old(techInput)
      ensures submissions == old(submissions) && completions == old(completions)
    {
      SetForm(form.(team := RemoveTag(form.team, tag)));
    }

    method AddTechnology()
      requires Valid()
      modifies this
      ensures Valid()
      ensures (form.technologies, techInput) == AddTag(old(form.technologies), old(techInput))
      ensures form == old(form).(technologies := form.technologies)
      ensures showSuggestions == AfterEffect(old(form), form, old(showSuggestions), editing)
      ensures teamInput == old(teamInput)
      ensures submissions == old(submissions) && completions == old(completions)
    {
      var t := Trim(techInput);
      if t != "" && t !in form.technologies {
        SetForm(form.(technologies := form.technologies + [t]));
        techInput := "";
      }
    }

    method RemoveTechnology(tag: string)
      requires Valid()
      modifies this
      ensures Valid()
      ensures form == old(form).(technologies := RemoveTag(old(form.technologies), tag))
      ensures showSuggestions == AfterEffect(old(form), form, old(showSuggestions), editing)
      ensures teamInput == old(teamInput) && techInput == old(techInput)
      ensures submissions == old(submissions) && completions == old(completions)
    {
      SetForm(form.(technologies := RemoveTag(form.technologies, tag)));
    }

    /** `handleSubmit`: one submission, then the completion callback. */
    method HandleSubmit()
      modifies this
      ensures var sent := if fromHook then form else WithTeamFallback(form, currentTeam);
              submissions == old(submissions) + [SubmissionOf(sent, editing, initial)]
      ensures completions == old(completions) + (if hasOnComplete then 1 else 0)
      ensures form == old(form) && showSuggestions == old(showSuggestions)
      ensures teamInput == old(teamInput) && techInput == old(techInput)
    {
      var sent := form;
      if !fromHook {
        sent := WithTeamFallback(form, currentTeam);
      }
      if editing && initial.Some? {
        submissions := submissions + [UpdateSent(initial.value.id, FormPatch(sent))];
      } else {
        submissions := submissions + [AddSent(sent)];
      }
      if hasOnComplete {
        completions := completions + 1;
      }
    }

    /** `handleSuggestionSelect` as written: the panel is hidden, but the
      new data is followed by the visibility effect, which shows the panel
      again whenever a watched field changed and the form is not editing. */
    method HandleSuggestionSelectAsWritten(uc: UseCase)
      requires Valid()
      modifies this
      ensures Valid()
      ensures form == FromTemplate(uc)
      ensures showSuggestions == AfterEffect(old(form), form, false, editing)
      ensures teamInput == old(teamInput) && techInput == old(techInput)
      ensures submissions == old(submissions) && completions == old(completions)
    {
      var before := form;
      form := FromTemplate(uc);
      showSuggestions := false;
      if Watched(before) != Watched(form) {
        showSuggestions := !editing && Relevant(form);
      }
    }

    /** `handleSuggestionSelect` as intended: the template fills the form
      and the panel stays hidden. */
    method HandleSuggestionSelect(uc: UseCase)
      requires Valid()
      modifies this
      ensures Valid()
      ensures form == FromTemplate(uc)
      ensures !showSuggestions
      ensures teamInput == old(teamInput) && techInput == old(techInput)
      ensures submissions == old(submissions) && completions == old(completions)
    {
      form := FromTemplate(uc);
      showSuggestions := false;
    }

    /** `getSuggestionsUseCases`. */
    function Candidates(ucs: seq<UseCase>): seq<UseCase>
      reads this
    {
      SuggestionCandidates(ucs, editing, initial)
    }
  }
}
