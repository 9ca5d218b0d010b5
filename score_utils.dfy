/** The weighted scoring engine: the legacy level mapping, the composite
    score of a use case, and the completion of a score map with defaults. */
module ScoreUtils {
  import opened Seqs
  import opened Types

  /** The legacy impact and ease levels as scores: high is 5, low is 1,
      medium and anything unrecognised is 3. */
  function LevelToScore(level: string): (s: ScoreLevel)
    ensures s == 1 || s == 3 || s == 5
    ensures s == 5 <==> level == "high"
    ensures s == 1 <==> level == "low"
  {
    match level
    case "high" => 5
    case "medium" => 3
    case "low" => 1
    case _ => 3
  }

  /** The score as it enters the average: a parameter where lower is
      better counts 6 - s, so 1 and 5 swap places. */
  function Normalized(p: ScoreParameter, s: ScoreLevel): ScoreLevel
  {
    if p.preferredDirection == Some(Low) then 6 - s else s
  }

  /** A neutral parameter counts with half its weight. */
  function EffectiveWeight(p: ScoreParameter): real
  {
    if p.preferredDirection == Some(Neutral) then p.weight * 0.5 else p.weight
  }

  /** The two running sums of the score loop. */
  datatype Totals = Totals(weightedSum: real, totalWeight: real)


  /** What one parameter adds to the sums: nothing when the use case has
      no score for it. */
  function Contribution(m: Scores, p: ScoreParameter): Totals
  {
    if p.id in m then Totals(Normalized(p, m[p.id]) as real * EffectiveWeight(p), EffectiveWeight(p))
    else Totals(0.0, 0.0)
  }

  /** The sums after visiting the parameters in order. */
  function Accumulate(m: Scores, ps: seq<ScoreParameter>): Totals
    decreases |ps|
  {
    if ps == [] then Totals(0.0, 0.0)
    else
      var before := Accumulate(m, ps[..|ps| - 1]);
      var c := Contribution(m, ps[|ps| - 1]);
      Totals(before.weightedSum + c.weightedSum, before.totalWeight + c.totalWeight)
  }

  /** `Math.round`: halves round up. */
  function Round(x: real): (r: int)
    ensures r as real - 0.5 <= x < r as real + 0.5
  {
    (x + 0.5).Floor
  }

  /** The composite score: zero without a score map, without parameters or
      when no parameter is scored; otherwise the weighted average on the
      scale 1 to 5, rounded to a multiple of 1/5. */
  function CompositeScore(scores: Option<Scores>, ps: seq<ScoreParameter>): real
  {
    if scores.None? || ps == [] then 0.0
    else
      var t := Accumulate(scores.value, ps);
      if t.totalWeight == 0.0 then 0.0
      else Round(t.weightedSum / t.totalWeight * 5.0) as real / 5.0
  }

  /** `calculateScore`: one pass over the parameters. */
  method CalculateScore(scores: Option<Scores>, ps: seq<ScoreParameter>) returns (r: real)
    ensures r == CompositeScore(scores, ps)
  {
    if scores.None? || |ps| == 0 {
      return 0.0;
    }
    var m := scores.value;
    var weightedSum := 0.0;
    var totalWeight := 0.0;
    var i := 0;
    while i < |ps|
      invariant 0 <= i <= |ps|
      invariant Totals(weightedSum, totalWeight) == Accumulate(m, ps[..i])
    {
      var p := ps[i];
      if p.id in m {
        var normalized := m[p.id];
        if p.preferredDirection == Some(Low) {
          normalized := 6 - normalized;
        }
        var effectiveWeight := if p.preferredDirection == Some(Neutral) then p.weight * 0.5 else p.weight;
        weightedSum := weightedSum + normalized as real * effectiveWeight;
        totalWeight := totalWeight + effectiveWeight;
      }
      assert ps[..i + 1][..i] == ps[..i];
      i := i + 1;
    }
    assert ps[..i] == ps;
    if totalWeight == 0.0 {
      return 0.0;
    }
    r := Round(weightedSum / totalWeight * 5.0) as real / 5.0;
  }

  lemma {:induction false} AccumulateUnscored(m: Scores, ps: seq<ScoreParameter>)
    requires forall i :: 0 <= i < |ps| ==> ps[i].id !in m
    ensures Accumulate(m, ps) == Totals(0.0, 0.0)
    decreases |ps|
  {
    if ps != [] {
      var init := ps[..|ps| - 1];
      assert forall i :: 0 <= i < |init| ==> init[i] == ps[i];
      AccumulateUnscored(m, init);
    }
  }

  /** The three ways the score comes out as zero: no score map, no
      parameters, or no parameter with a score. */
  lemma CompositeScoreZero(scores: Option<Scores>, ps: seq<ScoreParameter>)
    requires scores.None? || ps == [] || forall i :: 0 <= i < |ps| ==> ps[i].id !in scores.value
    ensures CompositeScore(scores, ps) == 0.0
  {
    if scores.Some? && ps != [] {
      AccumulateUnscored(scores.value, ps);
    }
  }

  /** Preferring low scores mirrors the scale: a parameter preferring low
      scored s counts as the same parameter preferring high scored 6 - s. */
  lemma LowPreferenceMirrors(m: Scores, p: ScoreParameter, s: ScoreLevel)
    ensures Contribution(m[p.id := s], p.(preferredDirection := Some(Low)))
         == Contribution(m[p.id := 6 - s], p.(preferredDirection := Some(High)))
  {
  }

  /** A neutral parameter adds half of what it adds when preferring high scores. */
  lemma NeutralHalves(m: Scores, p: ScoreParameter)
    ensures var n := Contribution(m, p.(preferredDirection := Some(Neutral)));
            var h := Contribution(m, p.(preferredDirection := Some(High)));
            n.weightedSum == h.weightedSum * 0.5 && n.totalWeight == h.totalWeight * 0.5
  {
  }

  /** Two score maps that agree on the listed parameters' ids. */
  ghost predicate AgreeOn(m: Scores, m': Scores, ps: seq<ScoreParameter>)
  {
    forall i :: 0 <= i < |ps| ==> AgreeAt(m, m', ps[i].id)
  }

  ghost predicate AgreeAt(m: Scores, m': Scores, k: string)
  {
    (k in m <==> k in m') && (k in m ==> m[k] == m'[k])
  }

  lemma {:induction false} AccumulateAgreeing(m: Scores, m': Scores, ps: seq<ScoreParameter>)
    requires AgreeOn(m, m', ps)
    ensures Accumulate(m, ps) == Accumulate(m', ps)
    decreases |ps|
  {
    if ps != [] {
      var init := ps[..|ps| - 1];
      assert forall i :: 0 <= i < |init| ==> init[i] == ps[i];
      AccumulateAgreeing(m, m', init);
      ContributionAgreeing(m, m', ps[|ps| - 1]);
    }
  }

  lemma ContributionAgreeing(m: Scores, m': Scores, p: ScoreParameter)
    requires AgreeAt(m, m', p.id)
    ensures Contribution(m, p) == Contribution(m', p)
  {
  }

  /** Only the listed parameters count: scores under other ids are ignored. */
  lemma CompositeScoreIgnoresOtherIds(m: Scores, m': Scores, ps: seq<ScoreParameter>)
    requires AgreeOn(m, m', ps)
    ensures CompositeScore(Some(m), ps) == CompositeScore(Some(m'), ps)
  {
    AccumulateAgreeing(m, m', ps);
  }

  /** The score is always a whole number of fifths. */
  lemma CompositeScoreOnFifths(scores: Option<Scores>, ps: seq<ScoreParameter>)
    ensures var r := CompositeScore(scores, ps); (r * 5.0).Floor as real == r * 5.0
  {
  }

  /** With positive weights the sums bound each other: every normalized score lies in 1..5. */
  lemma {:induction false} AccumulateBounds(m: Scores, ps: seq<ScoreParameter>)
    requires forall i :: 0 <= i < |ps| ==> ps[i].weight > 0.0
    ensures var t := Accumulate(m, ps);
            0.0 <= t.totalWeight <= t.weightedSum <= 5.0 * t.totalWeight
    ensures (exists i :: 0 <= i < |ps| && ps[i].id in m) ==> Accumulate(m, ps).totalWeight > 0.0
    decreases |ps|
  {
    if ps != [] {
      var init := ps[..|ps| - 1];
      var last := ps[|ps| - 1];
      assert forall i :: 0 <= i < |init| ==> init[i] == ps[i];
      AccumulateBounds(m, init);
      ContributionBounds(m, last);
      if exists i :: 0 <= i < |ps| && ps[i].id in m {
        var i :| 0 <= i < |ps| && ps[i].id in m;
        if i < |ps| - 1 {
          assert init[i].id in m;
        }
      }
    }
  }

  lemma ContributionBounds(m: Scores, p: ScoreParameter)
    requires p.weight > 0.0
    ensures var c := Contribution(m, p);
            0.0 <= c.totalWeight <= c.weightedSum <= 5.0 * c.totalWeight
    ensures p.id in m ==> Contribution(m, p).totalWeight > 0.0
  {
    if p.id in m {
      var w := EffectiveWeight(p);
      var s := Normalized(p, m[p.id]) as real;
      assert Contribution(m, p) == Totals(s * w, w);
      WeightedBounds(s, w);
    }
  }

  /** A score in 1..5 times a positive weight lies between the weight and five times it. */
  lemma WeightedBounds(s: real, w: real)
    requires w > 0.0 && 1.0 <= s <= 5.0
    ensures var c := Totals(s * w, w);
            0.0 < c.totalWeight <= c.weightedSum <= 5.0 * c.totalWeight
  {
    MulLe(1.0, s, w);
    MulLe(s, 5.0, w);
  }

  lemma MulLe(x: real, y: real, w: real)
    requires w > 0.0 && x <= y
    ensures x * w <= y * w
  {
  }

  lemma MulLt(x: real, y: real, w: real)
    requires w > 0.0 && x < y
    ensures x * w < y * w
  {
  }

  lemma QuotientBounds(a: real, b: real)
    requires 0.0 < b && b <= a <= 5.0 * b
    ensures 1.0 <= a / b <= 5.0
  {
    var q := a / b;
    assert q * b == a;
    if q < 1.0 {
      MulLt(q, 1.0, b);
    }
    if q > 5.0 {
      MulLt(5.0, q, b);
    }
  }

  /** With positive weights and at least one scored parameter, the score lies in [1, 5]. */
  lemma CompositeScoreBounds(m: Scores, ps: seq<ScoreParameter>)
    requires forall i :: 0 <= i < |ps| ==> ps[i].weight > 0.0
    requires exists i :: 0 <= i < |ps| && ps[i].id in m
    ensures 1.0 <= CompositeScore(Some(m), ps) <= 5.0
  {
    AccumulateBounds(m, ps);
    var t := Accumulate(m, ps);
    QuotientBounds(t.weightedSum, t.totalWeight);
    var x := t.weightedSum / t.totalWeight * 5.0;
    assert 5.0 <= x <= 25.0;
    var k := Round(x);
    assert 5 <= k <= 25;
  }

  lemma {:induction false} AccumulateConcat(m: Scores, a: seq<ScoreParameter>, b: seq<ScoreParameter>)
    ensures Accumulate(m, a + b).weightedSum == Accumulate(m, a).weightedSum + Accumulate(m, b).weightedSum
    ensures Accumulate(m, a + b).totalWeight == Accumulate(m, a).totalWeight + Accumulate(m, b).totalWeight
    decreases |b|
  {
    if b == [] {
      assert a + b == a;
    } else {
      assert (a + b)[..|a + b| - 1] == a + b[..|b| - 1];
      AccumulateConcat(m, a, b[..|b| - 1]);
    }
  }

  lemma AccumulateSingle(m: Scores, e: ScoreParameter)
    ensures Accumulate(m, [e]) == Contribution(m, e)
  {
    assert [e][..0] == [];
  }

  /** Taking one parameter out of the middle removes exactly its contribution. */
  lemma AccumulateExtract(m: Scores, x: seq<ScoreParameter>, e: ScoreParameter, y: seq<ScoreParameter>)
    ensures Accumulate(m, x + [e] + y).weightedSum == Accumulate(m, x + y).weightedSum + Contribution(m, e).weightedSum
    ensures Accumulate(m, x + [e] + y).totalWeight == Accumulate(m, x + y).totalWeight + Contribution(m, e).totalWeight
  {
    AccumulateConcat(m, x + [e], y);
    AccumulateConcat(m, x, [e]);
    AccumulateConcat(m, x, y);
    AccumulateSingle(m, e);
  }

  lemma {:induction false} AccumulatePermutation(m: Scores, ps: seq<ScoreParameter>, qs: seq<ScoreParameter>)
    requires multiset(ps) == multiset(qs)
    ensures Accumulate(m, ps).weightedSum == Accumulate(m, qs).weightedSum
    ensures Accumulate(m, ps).totalWeight == Accumulate(m, qs).totalWeight
    decreases |ps|
  {
    if ps == [] {
      assert qs == [];
    } else {
      var last := ps[|ps| - 1];
      var i := RemoveLast(ps, qs);
      var x, y := qs[..i], qs[i + 1..];
      AccumulatePermutation(m, ps[..|ps| - 1], x + y);
      AccumulateExtract(m, x, last, y);
      assert qs == x + [last] + y;
    }
  }

  /** The order of the parameter list does not matter. */
  lemma CompositeScorePermutation(scores: Option<Scores>, ps: seq<ScoreParameter>, qs: seq<ScoreParameter>)
    requires multiset(ps) == multiset(qs)
    ensures CompositeScore(scores, ps) == CompositeScore(scores, qs)
  {
    if ps == [] {
      assert qs == [];
    } else {
      assert qs != [] by {
        assert ps[0] in multiset(qs);
      }
      if scores.Some? {
        AccumulatePermutation(scores.value, ps, qs);
        assert Accumulate(scores.value, ps) == Accumulate(scores.value, qs);
      }
    }
  }

  /** The score a parameter starts at: the legacy impact or ease level
      for those two parameters when one is given, else its default or 3. */
  function DefaultFor(p: ScoreParameter, impact: string, ease: string): ScoreLevel
  {
    if p.id == "impact" && impact != "" then LevelToScore(impact)
    else if p.id == "easeOfImplementation" && ease != "" then LevelToScore(ease)
    else p.defaultValue.GetOr(3)
  }

  /** The map built by visiting the parameters in order; a later parameter
      with a repeated id overwrites an earlier one. */
  function DefaultScores(ps: seq<ScoreParameter>, impact: string, ease: string): (r: Scores)
    ensures r.Keys == Ids(ps)
    decreases |ps|
  {
    if ps == [] then map[]
    else
      var init := ps[..|ps| - 1];
      var last := ps[|ps| - 1];
      IdsSnoc(ps);
      DefaultScores(init, impact, ease)[last.id := DefaultFor(last, impact, ease)]
  }

  lemma DefaultScoresSnoc(ps: seq<ScoreParameter>, i: nat, impact: string, ease: string)
    requires i < |ps|
    ensures DefaultScores(ps[..i + 1], impact, ease) == DefaultScores(ps[..i], impact, ease)[ps[i].id := DefaultFor(ps[i], impact, ease)]
  {
    assert ps[..i + 1][..i] == ps[..i];
  }

  /** `createDefaultScores`. */
  method CreateDefaultScores(ps: seq<ScoreParameter>, impact: string, ease: string) returns (scores: Scores)
    ensures scores == DefaultScores(ps, impact, ease)
  {
    scores := map[];
    var i := 0;
    while i < |ps|
      invariant 0 <= i <= |ps|
      invariant scores == DefaultScores(ps[..i], impact, ease)
    {
      var p := ps[i];
      DefaultScoresSnoc(ps, i, impact, ease);
      if p.id == "impact" && impact != "" {
        scores := scores[p.id := LevelToScore(impact)];
      } else if p.id == "easeOfImplementation" && ease != "" {
        scores := scores[p.id := LevelToScore(ease)];
      } else {
        scores := scores[p.id := p.defaultValue.GetOr(3)];
      }
      assert ps[..i + 1][..i] == ps[..i];
      i := i + 1;
    }
    assert ps[..i] == ps;
  }

  /** Each parameter whose id does not recur later gets its own starting score. */
  lemma {:induction false} DefaultScoresValues(ps: seq<ScoreParameter>, impact: string, ease: string, i: nat)
    requires i < |ps|
    requires forall j :: i < j < |ps| ==> ps[j].id != ps[i].id
    ensures DefaultScores(ps, impact, ease)[ps[i].id] == DefaultFor(ps[i], impact, ease)
    decreases |ps|
  {
    if i < |ps| - 1 {
      DefaultScoresValues(ps[..|ps| - 1], impact, ease, i);
    }
  }

  /** The map with a default added for every parameter id it lacks; the
      first parameter with a given id decides its default. */
  function Completed(m: Scores, ps: seq<ScoreParameter>): (r: Scores)
    ensures r.Keys == m.Keys + Ids(ps)
    ensures forall k :: k in m ==> r[k] == m[k]
    decreases |ps|
  {
    if ps == [] then m
    else
      var init := ps[..|ps| - 1];
      var last := ps[|ps| - 1];
      var c := Completed(m, init);
      IdsSnoc(ps);
      if last.id in c then c else c[last.id := last.defaultValue.GetOr(3)]
  }

  /** `ensureCompleteScores`: a missing map gets the defaults of every
      parameter; a present one is completed. */
  function EnsureComplete(scores: Option<Scores>, ps: seq<ScoreParameter>): (r: Scores)
    ensures Ids(ps) <= r.Keys
  {
    if scores.None? then DefaultScores(ps, "", "") else Completed(scores.value, ps)
  }

  method EnsureCompleteScores(scores: Option<Scores>, ps: seq<ScoreParameter>) returns (r: Scores)
    ensures r == EnsureComplete(scores, ps)
  {
    if scores.None? {
      r := CreateDefaultScores(ps, "", "");
      return;
    }
    r := scores.value;
    var i := 0;
    while i < |ps|
      invariant 0 <= i <= |ps|
      invariant r == Completed(scores.value, ps[..i])
    {
      var p := ps[i];
      if p.id !in r {
        r := r[p.id := p.defaultValue.GetOr(3)];
      }
      assert ps[..i + 1][..i] == ps[..i];
      i := i + 1;
    }
    assert ps[..i] == ps;
  }

  /** A parameter id missing from the map gets the default of the first parameter with that id. */
  lemma {:induction false} CompletedFillsDefaults(m: Scores, ps: seq<ScoreParameter>, i: nat)
    requires i < |ps| && ps[i].id !in m
    requires forall j :: 0 <= j < i ==> ps[j].id != ps[i].id
    ensures Completed(m, ps)[ps[i].id] == ps[i].defaultValue.GetOr(3)
    decreases |ps|
  {
    var init := ps[..|ps| - 1];
    if i < |ps| - 1 {
      CompletedFillsDefaults(m, init, i);
    } else {
      assert ps[i].id !in Ids(init);
    }
  }

  lemma {:induction false} CompletedUnchanged(m: Scores, ps: seq<ScoreParameter>)
    requires Ids(ps) <= m.Keys
    ensures Completed(m, ps) == m
    decreases |ps|
  {
    if ps != [] {
      IdsSnoc(ps);
      CompletedUnchanged(m, ps[..|ps| - 1]);
    }
  }

  /** Completing a completed map changes nothing. */
  lemma EnsureCompleteIdempotent(scores: Option<Scores>, ps: seq<ScoreParameter>)
    ensures EnsureComplete(Some(EnsureComplete(scores, ps)), ps) == EnsureComplete(scores, ps)
  {
    CompletedUnchanged(EnsureComplete(scores, ps), ps);
  }

  /** Without a map, every parameter gets exactly its default (with distinct ids). */
  lemma EnsureCompleteMissing(ps: seq<ScoreParameter>, i: nat)
    requires DistinctIds(ps) && i < |ps|
    ensures EnsureComplete(None, ps).Keys == Ids(ps)
    ensures EnsureComplete(None, ps)[ps[i].id] == ps[i].defaultValue.GetOr(3)
  {
    DefaultScoresValues(ps, "", "", i);
  }
}
