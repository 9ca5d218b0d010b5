/** The challenge form: a title, an optional category and three scores;
    a blank title is never submitted, the title is sent trimmed, and a
    new-challenge form is cleared after each submission. */
module ChallengeForm {
  import opened Seqs
  import opened Types
  import opened Text
  import opened Challenges

  /** The scores of a form that has none to start from. */
  const DefaultScores: ChallengeScores := ChallengeScores(3, 3, 3)

  /** `initialData?.scores || {3, 3, 3}`. */
  function InitialScores(initial: Option<Challenge>): ChallengeScores
  {
    if initial.Some? && initial.value.scores.Some? then initial.value.scores.value else DefaultScores
  }

  function InitialTitle(initial: Option<Challenge>): string
  {
    if initial.Some? then initial.value.title else ""
  }

  function InitialCategory(initial: Option<Challenge>): Option<string>
  {
    if initial.Some? then initial.value.category else None
  }

  /** What `handleSubmit` sends for a non-blank title: the trimmed title,
      the category and scores as set, the initial status (backlog when
      there is none) and the initial team, or else the current one. */
  function Submitted(title: string, category: Option<string>, scores: ChallengeScores,
                     initial: Option<Challenge>, team: Option<Team>): ChallengeFormData
  {
    var status := if initial.Some? && initial.value.status != "" then initial.value.status else "backlog";
    var teamId := if initial.Some? then initial.value.teamId else None;
    var teamName := if initial.Some? then initial.value.teamName else None;
    ChallengeFormData(Trim(title), category, None, status, Some(scores), None,
                      OrElse(teamId, TeamId(team)), OrElse(teamName, TeamName(team)))
  }

  /** The keys the submitted object has, as a partial update: impact and
      the selection are not among them. */
  function AsPatch(d: ChallengeFormData): ChallengePatch
  {
    ChallengePatch(Some(d.title), Some(d.category), None, Some(d.status), Some(d.scores), None,
                   Some(d.teamId), Some(d.teamName))
  }

  /** A submitted title is trimmed and not empty; the status is the
      initial one, or backlog; the scores are always present. */
  lemma SubmittedSpec(title: string, category: Option<string>, scores: ChallengeScores,
                      initial: Option<Challenge>, team: Option<Team>)
    requires !IsBlank(title)
    ensures var d := Submitted(title, category, scores, initial, team);
            && d.title != "" && Trim(d.title) == d.title && !IsBlank(d.title)
            && d.scores == Some(scores) && d.category == category
            && (initial.None? ==> d.status == "backlog" && d.teamId == TeamId(team) && d.teamName == TeamName(team))
            && (initial.Some? && initial.value.status != "" ==> d.status == initial.value.status)
  {
    TrimEmptyIffBlank(title);
    TrimIdempotent(title);
    TrimEmptyIffBlank(Trim(title));
  }

  /** Opening a challenge for editing and submitting it untouched gives it
      back with only `updatedAt` changed, when its title is already
      trimmed, it has a status, scores and a team. */
  lemma EditUntouchedRoundTrip(c: Challenge, team: Option<Team>, now: int)
    requires c.title != "" && Trim(c.title) == c.title
    requires c.status != "" && c.scores.Some?
    requires c.teamId.Some? && c.teamId.value != "" && c.teamName.Some? && c.teamName.value != ""
    ensures Merge(c, AsPatch(Submitted(InitialTitle(Some(c)), InitialCategory(Some(c)), InitialScores(Some(c)), Some(c), team)), now)
            == c.(updatedAt := now)
  {
  }

  /** Editing a challenge that has no scores gives it the default ones. */
  lemma EditGivesDefaultScores(c: Challenge, team: Option<Team>, now: int)
    requires c.scores.None?
    ensures Merge(c, AsPatch(Submitted(InitialTitle(Some(c)), InitialCategory(Some(c)), InitialScores(Some(c)), Some(c), team)), now).scores
            == Some(DefaultScores)
  {
  }

  /** The form's state and the submissions it has sent. */
  class ChallengeFormState {
    const initial: Option<Challenge>
    const isEditing: bool
    const currentTeam: Option<Team>
    var title: string
    var category: Option<string>
    var scores: ChallengeScores
    var submissions: seq<ChallengeFormData>

    constructor(initialData: Option<Challenge>, editing: bool, team: Option<Team>)
      ensures initial == initialData && isEditing == editing && currentTeam == team
      ensures title == InitialTitle(initialData) && category == InitialCategory(initialData)
      ensures scores == InitialScores(initialData) && submissions == []
    {
      initial := initialData;
      isEditing := editing;
      currentTeam := team;
      title := if initialData.Some? then initialData.value.title else "";
      category := if initialData.Some? then initialData.value.category else None;
      scores := if initialData.Some? && initialData.value.scores.Some? then initialData.value.scores.value else DefaultScores;
      submissions := [];
    }

    method SetTitle(t: string)
      modifies this
      ensures title == t
      ensures category == old(category) && scores == old(scores) && submissions == old(submissions)
    {
      title := t;
    }

    method SetCategory(c: Option<string>)
      modifies this
      ensures category == c
      ensures title == old(title) && scores == old(scores) && submissions == old(submissions)
    {
      category := c;
    }

    method HandleScoreChange(s: ChallengeScores)
      modifies this
      ensures scores == s
      ensures title == old(title) && category == old(category) && submissions == old(submissions)
    {
      scores := s;
    }

    /** `handleSubmit`: nothing for a blank title; otherwise one submission,
        and a new-challenge form is cleared while an edit form is kept. */
    method HandleSubmit()
      modifies this
      ensures IsBlank(old(title)) ==>
                submissions == old(submissions) && title == old(title) && category == old(category) && scores == old(scores)
      ensures !IsBlank(old(title)) ==>
                submissions == old(submissions) + [Submitted(old(title), old(category), old(scores), initial, currentTeam)]
      ensures !IsBlank(old(title)) && !isEditing ==> title == "" && category.None? && scores == DefaultScores
      ensures !IsBlank(old(title)) && isEditing ==> title == old(title) && category == old(category) && scores == old(scores)
    {
      TrimEmptyIffBlank(title);
      if Trim(title) == "" {
        return;
      }
      var status := if initial.Some? && initial.value.status != "" then initial.value.status else "backlog";
      var teamId := if initial.Some? then initial.value.teamId else None;
      var teamName := if initial.Some? then initial.value.teamName else None;
      submissions := submissions + [ChallengeFormData(Trim(title), category, None, status, Some(scores), None,
                                                      OrElse(teamId, TeamId(currentTeam)), OrElse(teamName, TeamName(currentTeam)))];
      if !isEditing {
        title := "";
        category := None;
        scores := DefaultScores;
      }
    }
  }
}
