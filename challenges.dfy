/** The challenge registry: challenges are added, merged with partial
    edits, deleted and selected in bulk; in team view only the current
    team's challenges are shown, and the selected ones are reported by id. */
module Challenges {
  import opened Seqs
  import opened Types

  /** The three 1-5 scores of a challenge. */
  datatype ChallengeScores = ChallengeScores(impact: ScoreLevel, feasibility: ScoreLevel, priority: ScoreLevel)

  /** A stored challenge; the dates are milliseconds since the epoch and an
      absent `selected` counts as not selected. */
  datatype Challenge = Challenge(
    id: string,
    title: string,
    category: Option<string>,
    impact: Option<string>,
    createdAt: int,
    updatedAt: int,
    status: string,
    scores: Option<ChallengeScores>,
    selected: Option<bool>,
    teamId: Option<string>,
    teamName: Option<string>)

  /** What the challenge form submits. */
  datatype ChallengeFormData = ChallengeFormData(
    title: string,
    category: Option<string>,
    impact: Option<string>,
    status: string,
    scores: Option<ChallengeScores>,
    selected: Option<bool>,
    teamId: Option<string>,
    teamName: Option<string>)

  /** A partial form: `None` for a key the object does not have, `Some(v)`
      for a key it has, even when `v` is itself `undefined`. */
  datatype ChallengePatch = ChallengePatch(
    title: Option<string>,
    category: Option<Option<string>>,
    impact: Option<Option<string>>,
    status: Option<string>,
    scores: Option<Option<ChallengeScores>>,
    selected: Option<Option<bool>>,
    teamId: Option<Option<string>>,
    teamName: Option<Option<string>>)

  predicate IsSelected(c: Challenge)
  {
    c.selected == Some(true)
  }

  /** `addChallenge`'s new entry: a fresh id and the current time, not
      selected, the team of the data or else the current team. */
  function NewChallenge(data: ChallengeFormData, id: string, now: int, team: Option<Team>): Challenge
  {
    Challenge(id, data.title, data.category, data.impact, now, now, data.status, data.scores,
              Some(false), OrElse(data.teamId, TeamId(team)), OrElse(data.teamName, TeamName(team)))
  }

  /** `{ ...challenge, ...data, updatedAt }`. */
  function Merge(c: Challenge, p: ChallengePatch, now: int): Challenge
  {
    c.(title := Override(p.title, c.title),
       category := Override(p.category, c.category),
       impact := Override(p.impact, c.impact),
       status := Override(p.status, c.status),
       scores := Override(p.scores, c.scores),
       selected := Override(p.selected, c.selected),
       teamId := Override(p.teamId, c.teamId),
       teamName := Override(p.teamName, c.teamName),
       updatedAt := now)
  }

  /** `updateChallenge`: every entry with the id merged with the patch. */
  function Updated(cs: seq<Challenge>, id: string, p: ChallengePatch, now: int): seq<Challenge>
  {
    seq(|cs|, i requires 0 <= i < |cs| => if cs[i].id == id then Merge(cs[i], p, now) else cs[i])
  }

  /** `deleteChallenge`. */
  function Deleted(cs: seq<Challenge>, id: string): seq<Challenge>
  {
    Filter(cs, (c: Challenge) => c.id != id)
  }

  /** The first pass of `autoSelectChallenges`: nothing selected. */
  function Deselected(cs: seq<Challenge>): seq<Challenge>
  {
    seq(|cs|, i requires 0 <= i < |cs| => cs[i].(selected := Some(false)))
  }

  /** The second pass: the entries whose id is listed become selected. */
  function SelectingIds(cs: seq<Challenge>, ids: seq<string>): seq<Challenge>
  {
    seq(|cs|, i requires 0 <= i < |cs| => if cs[i].id in ids then cs[i].(selected := Some(true)) else cs[i])
  }

  function AutoSelected(cs: seq<Challenge>, ids: seq<string>): seq<Challenge>
  {
    SelectingIds(Deselected(cs), ids)
  }

  /** One challenge as the bulk selection leaves it. */
  function WithSelection(c: Challenge, ids: seq<string>): Challenge
  {
    c.(selected := Some(c.id in ids))
  }

  /** The reference for the bulk selection: every entry on its own. */
  function SelectAll(cs: seq<Challenge>, ids: seq<string>): seq<Challenge>
  {
    seq(|cs|, i requires 0 <= i < |cs| => WithSelection(cs[i], ids))
  }

  predicate OfTeam(c: Challenge, team: Team)
  {
    c.teamId == Some(team.id)
  }

  /** The challenges shown: in team view with a current team only that
      team's, otherwise all. */
  function Shown(cs: seq<Challenge>, teamView: bool, team: Option<Team>): seq<Challenge>
  {
    if teamView && team.Some? then Filter(cs, (c: Challenge) => OfTeam(c, team.value)) else cs
  }

  function IdsOf(cs: seq<Challenge>): (r: seq<string>)
    ensures |r| == |cs|
    ensures forall i :: 0 <= i < |cs| ==> r[i] == cs[i].id
  {
    seq(|cs|, i requires 0 <= i < |cs| => cs[i].id)
  }

  /** `selectedChallenges`: the ids of the selected entries, in order. */
  function SelectedIds(shown: seq<Challenge>): seq<string>
  {
    IdsOf(Filter(shown, IsSelected))
  }

  /** A new challenge carries the given id, time, title, status and
      scores, is not selected, and takes the team of the data unless that
      is missing or empty, and the current team then. */
  lemma NewChallengeSpec(data: ChallengeFormData, id: string, now: int, team: Option<Team>)
    ensures var c := NewChallenge(data, id, now, team);
            && c.id == id && c.createdAt == now && c.updatedAt == now && !IsSelected(c)
            && c.title == data.title && c.status == data.status && c.scores == data.scores
            && (data.teamId.Some? && data.teamId.value != "" ==> c.teamId == data.teamId)
            && (data.teamId.None? || data.teamId.value == "" ==> c.teamId == TeamId(team))
            && (data.teamName.Some? && data.teamName.value != "" ==> c.teamName == data.teamName)
            && (data.teamName.None? || data.teamName.value == "" ==> c.teamName == TeamName(team))
  {
  }

  /** An update keeps the length and every id; entries with another id are
      unchanged and those with the id are merged, stamped with `now`. */
  lemma UpdatedSpec(cs: seq<Challenge>, id: string, p: ChallengePatch, now: int)
    ensures var r := Updated(cs, id, p, now);
            && |r| == |cs|
            && (forall i :: 0 <= i < |cs| ==> r[i].id == cs[i].id && r[i].createdAt == cs[i].createdAt)
            && (forall i :: 0 <= i < |cs| && cs[i].id != id ==> r[i] == cs[i])
            && (forall i :: 0 <= i < |cs| && cs[i].id == id ==> r[i] == Merge(cs[i], p, now) && r[i].updatedAt == now)
  {
  }

  /** A key the patch has overrides the field; a key it lacks keeps it. */
  lemma MergeSpec(c: Challenge, p: ChallengePatch, now: int)
    ensures var m := Merge(c, p, now);
            && (p.title.Some? ==> m.title == p.title.value) && (p.title.None? ==> m.title == c.title)
            && (p.status.Some? ==> m.status == p.status.value) && (p.status.None? ==> m.status == c.status)
            && (p.scores.Some? ==> m.scores == p.scores.value) && (p.scores.None? ==> m.scores == c.scores)
            && (p.category.Some? ==> m.category == p.category.value) && (p.category.None? ==> m.category == c.category)
            && (p.selected.None? ==> m.selected == c.selected)
            && m.id == c.id && m.createdAt == c.createdAt && m.updatedAt == now
  {
  }

  /** Applying the same update twice is the same as applying it once. */
  lemma UpdatedTwice(cs: seq<Challenge>, id: string, p: ChallengePatch, now: int)
    ensures Updated(Updated(cs, id, p, now), id, p, now) == Updated(cs, id, p, now)
  {
    var once := Updated(cs, id, p, now);
    var twice := Updated(once, id, p, now);
    assert forall i :: 0 <= i < |cs| ==> twice[i] == once[i];
  }

  /** Deleting removes every entry with the id and keeps the others in
      their order. */
  lemma DeletedSpec(cs: seq<Challenge>, id: string)
    ensures forall c :: c in Deleted(cs, id) <==> c in cs && c.id != id
    ensures IsSubsequence(Deleted(cs, id), cs)
    ensures (forall c :: c in cs ==> c.id != id) ==> Deleted(cs, id) == cs
  {
    FilterIsSubsequence(cs, (c: Challenge) => c.id != id);
    if forall c :: c in cs ==> c.id != id {
      FilterKeepsAll(cs, (c: Challenge) => c.id != id);
    }
  }

  /** Deleting a just-added challenge by its fresh id restores the list. */
  lemma AddThenDelete(cs: seq<Challenge>, data: ChallengeFormData, id: string, now: int, team: Option<Team>)
    requires forall c :: c in cs ==> c.id != id
    ensures Deleted(cs + [NewChallenge(data, id, now, team)], id) == cs
  {
    var p := (c: Challenge) => c.id != id;
    FilterConcat(cs, [NewChallenge(data, id, now, team)], p);
    FilterKeepsAll(cs, p);
    assert Filter([NewChallenge(data, id, now, team)], p) == [];
  }

  /** The two passes of the bulk selection select an entry exactly when
      its id is listed, and change nothing else. */
  lemma AutoSelectedSpec(cs: seq<Challenge>, ids: seq<string>)
    ensures AutoSelected(cs, ids) == SelectAll(cs, ids)
    ensures forall i :: 0 <= i < |cs| ==> (IsSelected(AutoSelected(cs, ids)[i]) <==> cs[i].id in ids)
  {
    var r := AutoSelected(cs, ids);
    assert |r| == |cs|;
    forall i | 0 <= i < |cs|
      ensures r[i] == WithSelection(cs[i], ids)
    {
      assert Deselected(cs)[i] == cs[i].(selected := Some(false));
    }
  }

  /** Selecting the same ids again changes nothing. */
  lemma AutoSelectedIdempotent(cs: seq<Challenge>, ids: seq<string>)
    ensures AutoSelected(AutoSelected(cs, ids), ids) == AutoSelected(cs, ids)
  {
    AutoSelectedSpec(cs, ids);
    AutoSelectedSpec(AutoSelected(cs, ids), ids);
  }

  lemma SelectAllCons(cs: seq<Challenge>, ids: seq<string>)
    requires cs != []
    ensures SelectAll(cs, ids) == [WithSelection(cs[0], ids)] + SelectAll(cs[1..], ids)
  {
  }

  /** The bulk selection does not change which challenges a team sees. */
  lemma {:induction false} ShownSelectAll(cs: seq<Challenge>, ids: seq<string>, team: Team)
    ensures Filter(SelectAll(cs, ids), (c: Challenge) => OfTeam(c, team))
            == SelectAll(Filter(cs, (c: Challenge) => OfTeam(c, team)), ids)
    decreases |cs|
  {
    if cs != [] {
      SelectAllCons(cs, ids);
      ShownSelectAll(cs[1..], ids, team);
      var kept := Filter(cs, (c: Challenge) => OfTeam(c, team));
      if OfTeam(cs[0], team) {
        assert kept == [cs[0]] + Filter(cs[1..], (c: Challenge) => OfTeam(c, team));
        SelectAllCons(kept, ids);
      }
    }
  }

  /** After a bulk selection the selected entries are the listed ones. */
  lemma {:induction false} SelectedOfSelectAllEntries(cs: seq<Challenge>, ids: seq<string>)
    ensures Filter(SelectAll(cs, ids), IsSelected) == SelectAll(Filter(cs, (c: Challenge) => c.id in ids), ids)
    decreases |cs|
  {
    if cs != [] {
      SelectAllCons(cs, ids);
      SelectedOfSelectAllEntries(cs[1..], ids);
      var listed := Filter(cs, (c: Challenge) => c.id in ids);
      if cs[0].id in ids {
        assert listed == [cs[0]] + Filter(cs[1..], (c: Challenge) => c.id in ids);
        SelectAllCons(listed, ids);
      }
    }
  }

  /** After a bulk selection the selected ids of a list are its ids that
      were listed, in list order. */
  lemma SelectedOfSelectAll(cs: seq<Challenge>, ids: seq<string>)
    ensures SelectedIds(SelectAll(cs, ids)) == IdsOf(Filter(cs, (c: Challenge) => c.id in ids))
  {
    SelectedOfSelectAllEntries(cs, ids);
  }

  /** After `autoSelectChallenges(ids)` the reported selection is exactly
      the shown challenges whose id is listed, in order, in either view. */
  lemma SelectedAfterAutoSelect(cs: seq<Challenge>, ids: seq<string>, teamView: bool, team: Option<Team>)
    ensures SelectedIds(Shown(AutoSelected(cs, ids), teamView, team))
            == IdsOf(Filter(Shown(cs, teamView, team), (c: Challenge) => c.id in ids))
  {
    AutoSelectedSpec(cs, ids);
    if teamView && team.Some? {
      ShownSelectAll(cs, ids, team.value);
      SelectedOfSelectAll(Shown(cs, teamView, team), ids);
    } else {
      SelectedOfSelectAll(cs, ids);
    }
  }

  /** In team view with a team exactly that team's challenges are shown,
      in order; otherwise all of them. */
  lemma ShownSpec(cs: seq<Challenge>, teamView: bool, team: Option<Team>)
    ensures IsSubsequence(Shown(cs, teamView, team), cs)
    ensures teamView && team.Some? ==>
              forall c :: c in Shown(cs, teamView, team) <==> c in cs && c.teamId == Some(team.value.id)
    ensures !(teamView && team.Some?) ==> Shown(cs, teamView, team) == cs
  {
    if teamView && team.Some? {
      FilterIsSubsequence(cs, (c: Challenge) => OfTeam(c, team.value));
    } else {
      FilterKeepsAll(cs, (c: Challenge) => true);
      FilterIsSubsequence(cs, (c: Challenge) => true);
    }
  }

  /** An id is reported selected exactly when a shown challenge with it
      is selected. */
  lemma SelectedIdsSpec(shown: seq<Challenge>)
    ensures forall id :: id in SelectedIds(shown) <==> exists c :: c in shown && IsSelected(c) && c.id == id
  {
    var sel := Filter(shown, IsSelected);
    forall id
      ensures id in SelectedIds(shown) <==> exists c :: c in shown && IsSelected(c) && c.id == id
    {
      if exists c :: c in shown && IsSelected(c) && c.id == id {
        var c :| c in shown && IsSelected(c) && c.id == id;
        var k :| 0 <= k < |sel| && sel[k] == c;
        assert SelectedIds(shown)[k] == id;
      }
    }
  }

  /** `useChallenges`: the list of challenges, replaced whole by each
      operation; the team context is fixed for the store's lifetime. */
  class ChallengeStore {
    var challenges: seq<Challenge>
    const currentTeam: Option<Team>
    const isTeamView: bool

    /** Starts from the challenges read from storage. */
    constructor(saved: seq<Challenge>, team: Option<Team>, teamView: bool)
      ensures challenges == saved && currentTeam == team && isTeamView == teamView
    {
      challenges := saved;
      currentTeam := team;
      isTeamView := teamView;
    }

    /** The `challenges` the hook returns. */
    function ShownChallenges(): seq<Challenge>
      reads this
    {
      Shown(challenges, isTeamView, currentTeam)
    }

    function SelectedChallenges(): seq<string>
      reads this
    {
      SelectedIds(ShownChallenges())
    }

    method AddChallenge(data: ChallengeFormData, id: string, now: int) returns (c: Challenge)
      modifies this
      ensures c == NewChallenge(data, id, now, currentTeam)
      ensures challenges == old(challenges) + [c]
    {
      c := Challenge(id, data.title, data.category, data.impact, now, now, data.status, data.scores,
                     Some(false), OrElse(data.teamId, TeamId(currentTeam)), OrElse(data.teamName, TeamName(currentTeam)));
      challenges := challenges + [c];
    }

    method UpdateChallenge(id: string, p: ChallengePatch, now: int)
      modifies this
      ensures challenges == Updated(old(challenges), id, p, now)
    {
      challenges := Updated(challenges, id, p, now);
    }

    method DeleteChallenge(id: string)
      modifies this
      ensures challenges == Deleted(old(challenges), id)
    {
      challenges := Deleted(challenges, id);
    }

    /** Two whole-list replacements, as in the hook: deselect all, then
      select the listed ids. */
    method AutoSelectChallenges(ids: seq<string>)
      modifies this
      ensures challenges == SelectAll(old(challenges), ids)
      ensures SelectedChallenges() == IdsOf(Filter(Shown(old(challenges), isTeamView, currentTeam), (c: Challenge) => c.id in ids))
    {
      SelectedAfterAutoSelect(challenges, ids, isTeamView, currentTeam);
      AutoSelectedSpec(challenges, ids);
      challenges := Deselected(challenges);
      challenges := SelectingIds(challenges, ids);
    }
  }
}
