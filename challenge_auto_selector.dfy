/** Auto-selection of challenges: three minimum scores set on sliders pick
    the scored challenges that reach all of them; applying reports their
    ids to the registry. */
module ChallengeAutoSelector {
  import opened Seqs
  import opened Types
  import opened Text
  import opened Challenges

  /** The minimum impact, feasibility and priority. */
  datatype Thresholds = Thresholds(impact: ScoreLevel, feasibility: ScoreLevel, priority: ScoreLevel)

  /** Every challenge scoring 3 or more on all three. */
  const DefaultThresholds: Thresholds := Thresholds(3, 3, 3)

  /** A challenge without scores is never picked. */
  predicate Picked(c: Challenge, t: Thresholds)
  {
    && c.scores.Some?
    && c.scores.value.impact >= t.impact
    && c.scores.value.feasibility >= t.feasibility
    && c.scores.value.priority >= t.priority
  }

  /** `getSelectedChallenges`. */
  function Preview(cs: seq<Challenge>, t: Thresholds): seq<Challenge>
  {
    Filter(cs, (c: Challenge) => Picked(c, t))
  }

  /** Each threshold at least as high as in `t`. */
  predicate Stricter(u: Thresholds, t: Thresholds)
  {
    u.impact >= t.impact && u.feasibility >= t.feasibility && u.priority >= t.priority
  }

  /** The preview holds exactly the scored challenges meeting every
      threshold, in input order; with the default thresholds, those
      scoring 3 or more on all three. */
  lemma PreviewSpec(cs: seq<Challenge>, t: Thresholds)
    ensures IsSubsequence(Preview(cs, t), cs)
    ensures forall c :: c in Preview(cs, t) <==>
              && c in cs && c.scores.Some?
              && c.scores.value.impact >= t.impact
              && c.scores.value.feasibility >= t.feasibility
              && c.scores.value.priority >= t.priority
    ensures forall c :: c in Preview(cs, DefaultThresholds) <==>
              && c in cs && c.scores.Some?
              && c.scores.value.impact >= 3 && c.scores.value.feasibility >= 3 && c.scores.value.priority >= 3
  {
    FilterIsSubsequence(cs, (c: Challenge) => Picked(c, t));
  }

  /** Under stricter thresholds the preview is the looser preview
      filtered again. */
  lemma {:induction false} StricterFiltersAgain(cs: seq<Challenge>, u: Thresholds, t: Thresholds)
    requires Stricter(u, t)
    ensures Preview(cs, u) == Filter(Preview(cs, t), (c: Challenge) => Picked(c, u))
    decreases |cs|
  {
    if cs != [] {
      StricterFiltersAgain(cs[1..], u, t);
      var pu := (c: Challenge) => Picked(c, u);
      assert Preview(cs, u) == (if Picked(cs[0], u) then [cs[0]] else []) + Preview(cs[1..], u);
      if Picked(cs[0], t) {
        assert Preview(cs, t) == [cs[0]] + Preview(cs[1..], t);
        assert Filter(Preview(cs, t), pu) == (if Picked(cs[0], u) then [cs[0]] else []) + Filter(Preview(cs[1..], t), pu);
      } else {
        assert Preview(cs, t) == Preview(cs[1..], t);
        assert !Picked(cs[0], u);
      }
    }
  }

  /** Raising thresholds never adds a challenge: the stricter preview is a
      subsequence of the looser one. */
  lemma RaisingNeverAdds(cs: seq<Challenge>, u: Thresholds, t: Thresholds)
    requires Stricter(u, t)
    ensures IsSubsequence(Preview(cs, u), Preview(cs, t))
    ensures |Preview(cs, u)| <= |Preview(cs, t)|
  {
    StricterFiltersAgain(cs, u, t);
    FilterIsSubsequence(Preview(cs, t), (c: Challenge) => Picked(c, u));
  }

  /** When ids are unique, selecting the ids of the preview selects exactly
      the picked challenges. */
  lemma ApplySelectsPicked(cs: seq<Challenge>, t: Thresholds)
    requires forall i, j :: 0 <= i < |cs| && 0 <= j < |cs| && cs[i].id == cs[j].id ==> i == j
    ensures forall i :: 0 <= i < |cs| ==> (IsSelected(AutoSelected(cs, IdsOf(Preview(cs, t)))[i]) <==> Picked(cs[i], t))
  {
    var ids := IdsOf(Preview(cs, t));
    var p := Preview(cs, t);
    AutoSelectedSpec(cs, ids);
    forall i | 0 <= i < |cs|
      ensures cs[i].id in ids <==> Picked(cs[i], t)
    {
      if cs[i].id in ids {
        var k :| 0 <= k < |ids| && ids[k] == cs[i].id;
        assert p[k] in p;
        var j :| 0 <= j < |cs| && cs[j] == p[k];
      }
      if Picked(cs[i], t) {
        assert cs[i] in p;
        var k :| 0 <= k < |p| && p[k] == cs[i];
        assert ids[k] == cs[i].id;
      }
    }
  }

  /** In team view the selector sees only the team's challenges, yet the
      bulk selection clears every other challenge: afterwards no challenge
      of another team is selected unless it shares an id with a picked one. */
  lemma TeamViewClearsOtherTeams(cs: seq<Challenge>, team: Team, t: Thresholds)
    ensures var ids := IdsOf(Preview(Shown(cs, true, Some(team)), t));
            forall i :: 0 <= i < |cs| && !OfTeam(cs[i], team) && cs[i].id !in ids ==>
              !IsSelected(AutoSelected(cs, ids)[i])
  {
    AutoSelectedSpec(cs, IdsOf(Preview(Shown(cs, true, Some(team)), t)));
  }

  /** JavaScript's `${n}` for an integer. */
  function ShowInt(n: int): string
  {
    if n < 0 then "-" + ShowNat(-n) else ShowNat(n)
  }

  /** Different integers are shown differently. */
  lemma ShowIntInjective(a: int, b: int)
    requires ShowInt(a) == ShowInt(b)
    ensures a == b
  {
    SignShown(a);
    SignShown(b);
    if a < 0 {
      assert ShowNat(-a) == ShowInt(a)[1..];
      assert ShowNat(-b) == ShowInt(b)[1..];
      ShowNatValue(-a);
      ShowNatValue(-b);
    } else {
      ShowNatValue(a);
      ShowNatValue(b);
    }
  }

  /** The first character tells the sign. */
  lemma SignShown(n: int)
    ensures |ShowInt(n)| > 0
    ensures ShowInt(n)[0] == '-' <==> n < 0
  {
    if n >= 0 {
      assert IsDigit(ShowNat(n)[0]);
    }
  }

  /** `getScoreLabel`. */
  function ScoreLabel(score: int): string
  {
    match score
    case 1 => "Very Low (1)"
    case 2 => "Low (2)"
    case 3 => "Medium (3)"
    case 4 => "High (4)"
    case 5 => "Very High (5)"
    case _ => "Score: " + ShowInt(score)
  }

  /** The five levels carry their number in parentheses; anything else is
      shown as "Score: " and the number; and no two scores share a label. */
  lemma ScoreLabelSpec(a: int, b: int)
    ensures 1 <= a <= 5 ==> exists name :: ScoreLabel(a) == name + " (" + ShowInt(a) + ")"
    ensures !(1 <= a <= 5) ==> ScoreLabel(a) == "Score: " + ShowInt(a)
    ensures ScoreLabel(a) == ScoreLabel(b) ==> a == b
  {
    if 1 <= a <= 5 {
      var names := ["Very Low", "Low", "Medium", "High", "Very High"];
      assert ScoreLabel(a) == names[a - 1] + " (" + ShowInt(a) + ")";
    }
    ScoreLabelInjective(a, b);
  }

  lemma ScoreLabelInjective(a: int, b: int)
    ensures ScoreLabel(a) == ScoreLabel(b) ==> a == b
  {
    if ScoreLabel(a) == ScoreLabel(b) {
      LabelInitial(a);
      LabelInitial(b);
      if !(1 <= a <= 5) {
        var prefix := "Score: ";
        assert ScoreLabel(a) == prefix + ShowInt(a) && ScoreLabel(b) == prefix + ShowInt(b);
        assert (prefix + ShowInt(a))[7..] == ShowInt(a);
        assert (prefix + ShowInt(b))[7..] == ShowInt(b);
        ShowIntInjective(a, b);
      }
    }
  }

  /** Only labels of scores outside 1..5 start with 'S'. */
  lemma LabelInitial(n: int)
    ensures |ScoreLabel(n)| > 0
    ensures ScoreLabel(n)[0] == 'S' <==> !(1 <= n <= 5)
  {
  }

  /** The popover's state: the thresholds, whether it is open, and the id
      lists sent to the registry. */
  class Selector {
    var thresholds: Thresholds
    var open: bool
    var emitted: seq<seq<string>>

    constructor()
      ensures thresholds == DefaultThresholds && !open && emitted == []
    {
      thresholds := DefaultThresholds;
      open := false;
      emitted := [];
    }

    method SetImpact(v: ScoreLevel)
      modifies this
      ensures thresholds == old(thresholds).(impact := v)
      ensures open == old(open) && emitted == old(emitted)
    {
      thresholds := thresholds.(impact := v);
    }

    method SetFeasibility(v: ScoreLevel)
      modifies this
      ensures thresholds == old(thresholds).(feasibility := v)
      ensures open == old(open) && emitted == old(emitted)
    {
      thresholds := thresholds.(feasibility := v);
    }

    method SetPriority(v: ScoreLevel)
      modifies this
      ensures thresholds == old(thresholds).(priority := v)
      ensures open == old(open) && emitted == old(emitted)
    {
      thresholds := thresholds.(priority := v);
    }

    method SetOpen(b: bool)
      modifies this
      ensures open == b
      ensures thresholds == old(thresholds) && emitted == old(emitted)
    {
      open := b;
    }

    /** `applyAutoSelection`: reports the ids of the preview, in order, and
        closes the popover. */
    method ApplyAutoSelection(cs: seq<Challenge>)
      modifies this
      ensures emitted == old(emitted) + [IdsOf(Preview(cs, thresholds))]
      ensures !open && thresholds == old(thresholds)
    {
      var picked := Preview(cs, thresholds);
      emitted := emitted + [IdsOf(picked)];
      open := false;
    }
  }
}
