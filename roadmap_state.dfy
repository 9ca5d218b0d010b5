/** The roadmap board: which use cases are on the roadmap, the items shown
    per phase column (phase assigned by score percentile when the use case
    has none, time and FTE estimates read from free text when missing),
    drag-and-drop between the available list and the columns, and the
    totals. Calls to the use-case store are recorded as `UseCaseUpdate`s. */
module RoadmapState {
  import opened Seqs
  import opened Types
  import opened Text
  import opened UseCases

  /** The three ways the roadmap page lays out its columns. */
  datatype View = Timeline | List | Quarterly

  /** A use case on the board, with the column it is shown in. */
  datatype RoadmapItem = RoadmapItem(uc: UseCase, phase: Phase)

  /** A call to the store's `updateUseCase` with a one-field change. */
  datatype UseCaseUpdate =
    | SetInRoadmap(id: string, inRoadmap: bool)
    | SetPhase(id: string, phase: Phase)
    | SetOrder(id: string, order: int)
    | SetWeeks(id: string, weeks: int)
    | SetFte(id: string, fte: real)
    | SetAllocations(id: string, allocations: seq<RoleAllocation>)

  function IdsOf(ucs: seq<UseCase>): (r: seq<string>)
    ensures |r| == |ucs| && forall i :: 0 <= i < |ucs| ==> r[i] == ucs[i].id
  {
    seq(|ucs|, i requires 0 <= i < |ucs| => ucs[i].id)
  }

  /** The selection the board starts with: the use cases marked as on the
      roadmap or, when none is, the five best scored; nothing when there
      are no use cases. */
  function InitialSelection(ucs: seq<UseCase>): Option<seq<string>>
  {
    if ucs == [] then None
    else
      var marked := Filter(ucs, (uc: UseCase) => OnRoadmap(uc));
      if marked != [] then Some(IdsOf(marked))
      else Some(IdsOf(Take(Sort(ucs, ScoreDescending), 5)))
  }

  lemma InitialSelectionSpec(ucs: seq<UseCase>)
    ensures ucs == [] <==> InitialSelection(ucs).None?
    ensures (exists i :: 0 <= i < |ucs| && OnRoadmap(ucs[i])) ==>
              var r := InitialSelection(ucs).value;
              && (forall i :: 0 <= i < |ucs| && OnRoadmap(ucs[i]) ==> ucs[i].id in r)
              && (forall k :: 0 <= k < |r| ==> exists i :: 0 <= i < |ucs| && OnRoadmap(ucs[i]) && ucs[i].id == r[k])
    ensures ucs != [] && (forall i :: 0 <= i < |ucs| ==> !OnRoadmap(ucs[i])) ==>
              var r := InitialSelection(ucs).value;
              && |r| == (if |ucs| < 5 then |ucs| else 5)
              && (forall k :: 0 <= k < |r| ==> exists i :: 0 <= i < |ucs| && ucs[i].id == r[k])
  {
    if exists i :: 0 <= i < |ucs| && OnRoadmap(ucs[i]) {
      MarkedSelected(ucs);
    } else if ucs != [] {
      BestSelected(ucs);
    }
  }

  /** Some use case is marked: the selection is the ids of the marked ones. */
  lemma MarkedSelected(ucs: seq<UseCase>)
    requires exists i :: 0 <= i < |ucs| && OnRoadmap(ucs[i])
    ensures InitialSelection(ucs).Some?
    ensures var r := InitialSelection(ucs).value;
            && (forall i :: 0 <= i < |ucs| && OnRoadmap(ucs[i]) ==> ucs[i].id in r)
            && (forall k :: 0 <= k < |r| ==> exists i :: 0 <= i < |ucs| && OnRoadmap(ucs[i]) && ucs[i].id == r[k])
  {
    var marked := Filter(ucs, (uc: UseCase) => OnRoadmap(uc));
    var i :| 0 <= i < |ucs| && OnRoadmap(ucs[i]);
    assert ucs[i] in marked;
    var r := IdsOf(marked);
    assert InitialSelection(ucs) == Some(r);
    forall j | 0 <= j < |ucs| && OnRoadmap(ucs[j])
      ensures ucs[j].id in r
    {
      assert ucs[j] in marked;
      var k :| 0 <= k < |marked| && marked[k] == ucs[j];
      assert r[k] == ucs[j].id;
    }
    forall k | 0 <= k < |r|
      ensures exists i :: 0 <= i < |ucs| && OnRoadmap(ucs[i]) && ucs[i].id == r[k]
    {
      assert marked[k] in marked;
    }
  }

  /** None is marked: the selection is the ids of the five best scored, or
      of all when there are fewer. */
  lemma BestSelected(ucs: seq<UseCase>)
    requires ucs != [] && forall i :: 0 <= i < |ucs| ==> !OnRoadmap(ucs[i])
    ensures InitialSelection(ucs).Some?
    ensures var r := InitialSelection(ucs).value;
            && |r| == (if |ucs| < 5 then |ucs| else 5)
            && (forall k :: 0 <= k < |r| ==> exists i :: 0 <= i < |ucs| && ucs[i].id == r[k])
  {
    var marked := Filter(ucs, (uc: UseCase) => OnRoadmap(uc));
    FilterNone(ucs, (uc: UseCase) => OnRoadmap(uc));
    var sorted := Sort(ucs, ScoreDescending);
    var r := IdsOf(Take(sorted, 5));
    assert InitialSelection(ucs) == Some(r);
    forall k | 0 <= k < |r|
      ensures exists i :: 0 <= i < |ucs| && ucs[i].id == r[k]
    {
      assert sorted[k] in multiset(ucs);
      var i :| 0 <= i < |ucs| && ucs[i] == sorted[k];
    }
  }

  /** The five chosen are the best scored: any use case left out scores no
      higher than any chosen one. */
  lemma TopFiveAreBest(ucs: seq<UseCase>, k: nat, uc: UseCase)
    requires var top := Take(Sort(ucs, ScoreDescending), 5); k < |top| && uc in ucs && uc !in top
    ensures Take(Sort(ucs, ScoreDescending), 5)[k].score >= uc.score
  {
    var sorted := Sort(ucs, ScoreDescending);
    SortedUseCasesSpec(ucs, None);
    assert uc in multiset(sorted);
    var j :| 0 <= j < |sorted| && sorted[j] == uc;
  }

  /** `caseB?.score || 0`: the score of the first use case with the id, 0 for none. */
  function ScoreOfId(ucs: seq<UseCase>, id: string): real
  {
    match FindById(ucs, id)
    case None => 0.0
    case Some(uc) => uc.score
  }

  /** The comparator ordering ids by their use case's score, highest first. */
  function ByScoreDescending(ucs: seq<UseCase>): Comparator<string>
  {
    (a: string, b: string) => ScoreOfId(ucs, b) - ScoreOfId(ucs, a)
  }

  /** `indexOf`: the first position of `x`, or -1. */
  function IndexOf(s: seq<string>, x: string): (r: int)
    ensures -1 <= r < |s|
    ensures r == -1 <==> x !in s
    ensures r >= 0 ==> s[r] == x && forall k :: 0 <= k < r ==> s[k] != x
    decreases |s|
  {
    if s == [] then -1
    else if s[0] == x then 0
    else
      var r := IndexOf(s[1..], x);
      assert forall k :: 1 <= k < |s| ==> s[k] == s[1..][k - 1];
      if r == -1 then -1 else r + 1
  }

  /** The column for a position given as a fraction of the selection: four
      equal bands in the quarterly view; bands cut at 0.33 and 0.66 in the
      timeline and list views. */
  function PhaseForPercentile(percentile: real, view: View): Phase
  {
    if view == Quarterly then
      if percentile < 0.25 then Q1 else if percentile < 0.5 then Q2 else if percentile < 0.75 then Q3 else Q4
    else
      if percentile < 0.33 then ShortTerm else if percentile < 0.66 then MidTerm else LongTerm
  }

  /** A column's place from left to right within its view. */
  function Rank(p: Phase): nat
  {
    match p
    case ShortTerm => 0
    case MidTerm => 1
    case LongTerm => 2
    case Q1 => 0
    case Q2 => 1
    case Q3 => 2
    case Q4 => 3
  }

  /** Each view assigns its own columns, and a later position never gets
      an earlier column. */
  lemma PhaseForPercentileSpec(x: real, y: real, view: View)
    ensures view == Quarterly ==> PhaseForPercentile(x, view).IsQuarterly()
    ensures view != Quarterly ==> PhaseForPercentile(x, view).IsTimeline()
    ensures x <= y ==> Rank(PhaseForPercentile(x, view)) <= Rank(PhaseForPercentile(y, view))
    ensures x < 0.25 ==> PhaseForPercentile(x, view) in {Q1, ShortTerm}
  {
  }

  /** The column of a selected use case: its own phase when it has one,
      else the band of its position among the selected ids ordered by score. */
  function AssignedPhase(uc: UseCase, ucs: seq<UseCase>, selected: seq<string>, view: View): Phase
    requires uc.id in selected
  {
    if uc.roadmapPhase.Some? then uc.roadmapPhase.value
    else
      var sorted := Sort(selected, ByScoreDescending(ucs));
      assert uc.id in multiset(sorted);
      var index := IndexOf(sorted, uc.id);
      PhaseForPercentile(index as real / |sorted| as real, view)
  }

  /** The best scored selected use case goes to the first column when it
      has no phase of its own. */
  lemma BestGoesFirst(uc: UseCase, ucs: seq<UseCase>, selected: seq<string>, view: View)
    requires uc.id in selected && uc.roadmapPhase.None?
    requires Sort(selected, ByScoreDescending(ucs))[0] == uc.id
    ensures AssignedPhase(uc, ucs, selected, view) == (if view == Quarterly then Q1 else ShortTerm)
  {
  }

  /** Weeks: the stored value, else 4 per number in the time text (4 when
      it has none). */
  function WeeksEstimate(uc: UseCase): int
  {
    if uc.estimatedTimeInWeeks.Some? then uc.estimatedTimeInWeeks.value
    else match FirstNumber(uc.estimatedTime)
      case Some(n) => n * 4
      case None => 4
  }

  /** FTE: the stored value, else the number in the resources text (1 when
      it has none). */
  function FteEstimate(uc: UseCase): real
  {
    if uc.estimatedFTE.Some? then uc.estimatedFTE.value
    else match FirstNumber(uc.estimatedResources)
      case Some(n) => n as real
      case None => 1.0
  }

  /** Stored estimates are kept even when 0; "3 months" is 12 weeks; text
      without digits gives the defaults. */
  lemma EstimatesSpec(uc: UseCase, n: nat, rest: string)
    ensures uc.estimatedTimeInWeeks.Some? ==> WeeksEstimate(uc) == uc.estimatedTimeInWeeks.value
    ensures uc.estimatedFTE.Some? ==> FteEstimate(uc) == uc.estimatedFTE.value
    ensures uc.estimatedTimeInWeeks.None? && uc.estimatedTime == ShowNat(n) + rest && (rest == [] || !IsDigit(rest[0])) ==>
              WeeksEstimate(uc) == 4 * n
    ensures uc.estimatedFTE.None? && uc.estimatedResources == ShowNat(n) + rest && (rest == [] || !IsDigit(rest[0])) ==>
              FteEstimate(uc) == n as real
    ensures uc.estimatedTimeInWeeks.None? && (forall k :: 0 <= k < |uc.estimatedTime| ==> !IsDigit(uc.estimatedTime[k])) ==>
              WeeksEstimate(uc) == 4
    ensures uc.estimatedFTE.None? && (forall k :: 0 <= k < |uc.estimatedResources| ==> !IsDigit(uc.estimatedResources[k])) ==>
              FteEstimate(uc) == 1.0
  {
    if rest == [] || !IsDigit(rest[0]) {
      FirstNumberOfShown(n, rest);
    }
  }

  function ToItem(uc: UseCase, ucs: seq<UseCase>, selected: seq<string>, view: View): RoadmapItem
    requires uc.id in selected
  {
    RoadmapItem(uc.(estimatedTimeInWeeks := Some(WeeksEstimate(uc)), estimatedFTE := Some(FteEstimate(uc))),
                AssignedPhase(uc, ucs, selected, view))
  }

  function SelectedUseCases(ucs: seq<UseCase>, selected: seq<string>): (r: seq<UseCase>)
    ensures forall i :: 0 <= i < |r| ==> r[i].id in selected
  {
    var r := Filter(ucs, (uc: UseCase) => uc.id in selected);
    assert forall i :: 0 <= i < |r| ==> r[i] in r;
    r
  }

  /** The board's items: every selected use case, in use-case order. */
  function Items(ucs: seq<UseCase>, selected: seq<string>, view: View): seq<RoadmapItem>
  {
    var chosen := SelectedUseCases(ucs, selected);
    seq(|chosen|, i requires 0 <= i < |chosen| => ToItem(chosen[i], ucs, selected, view))
  }

  /** Items are exactly the selected use cases in their order, each with
      its own phase when it has one and with both estimates filled in. */
  lemma ItemsSpec(ucs: seq<UseCase>, selected: seq<string>, view: View)
    ensures var chosen := SelectedUseCases(ucs, selected);
            var r := Items(ucs, selected, view);
            && IsSubsequence(chosen, ucs)
            && (forall uc :: uc in chosen <==> uc in ucs && uc.id in selected)
            && |r| == |chosen|
            && (forall i :: 0 <= i < |r| ==>
                  && r[i].uc.id == chosen[i].id && r[i].uc.title == chosen[i].title && r[i].uc.score == chosen[i].score
                  && (chosen[i].roadmapPhase.Some? ==> r[i].phase == chosen[i].roadmapPhase.value)
                  && r[i].uc.estimatedTimeInWeeks.Some? && r[i].uc.estimatedFTE.Some?)
  {
    FilterIsSubsequence(ucs, (uc: UseCase) => uc.id in selected);
  }

  /** The `inRoadmap` flags to write back: one update per use case whose
      flag disagrees with the selection, in use-case order. */
  function WriteBack(ucs: seq<UseCase>, selected: seq<string>): seq<UseCaseUpdate>
    decreases |ucs|
  {
    if ucs == [] then []
    else
      var uc := ucs[|ucs| - 1];
      var selectedNow := uc.id in selected;
      WriteBack(ucs[..|ucs| - 1], selected) + (if uc.inRoadmap != Some(selectedNow) then [SetInRoadmap(uc.id, selectedNow)] else [])
  }

  lemma WriteBackStep(ucs: seq<UseCase>, selected: seq<string>, i: nat)
    requires i < |ucs|
    ensures WriteBack(ucs[..i + 1], selected) ==
              WriteBack(ucs[..i], selected) +
              (if ucs[i].inRoadmap != Some(ucs[i].id in selected) then [SetInRoadmap(ucs[i].id, ucs[i].id in selected)] else [])
  {
    assert ucs[..i + 1][..i] == ucs[..i];
  }

  /** The effect's loop: an update for every use case whose flag disagrees
      with the selection, in order. */
  method SyncMembership(ucs: seq<UseCase>, selected: seq<string>) returns (sent: seq<UseCaseUpdate>)
    ensures sent == WriteBack(ucs, selected)
  {
    sent := [];
    var i := 0;
    while i < |ucs|
      invariant 0 <= i <= |ucs|
      invariant sent == WriteBack(ucs[..i], selected)
    {
      var uc := ucs[i];
      var inRoadmap := uc.id in selected;
      if uc.inRoadmap != Some(inRoadmap) {
        sent := sent + [SetInRoadmap(uc.id, inRoadmap)];
      }
      WriteBackStep(ucs, selected, i);
      i := i + 1;
    }
    assert ucs[..i] == ucs;
  }

  /** Every write-back sets a use case's flag to its selection, every
      disagreeing use case gets one, and none is needed once flags agree. */
  lemma {:induction false} WriteBackSpec(ucs: seq<UseCase>, selected: seq<string>)
    ensures forall u :: u in WriteBack(ucs, selected) ==> u.SetInRoadmap? && u.inRoadmap == (u.id in selected)
    ensures forall i :: 0 <= i < |ucs| && ucs[i].inRoadmap != Some(ucs[i].id in selected) ==>
              SetInRoadmap(ucs[i].id, ucs[i].id in selected) in WriteBack(ucs, selected)
    ensures (forall i :: 0 <= i < |ucs| ==> ucs[i].inRoadmap == Some(ucs[i].id in selected)) ==> WriteBack(ucs, selected) == []
    decreases |ucs|
  {
    if ucs != [] {
      var init := ucs[..|ucs| - 1];
      WriteBackSpec(init, selected);
      assert forall i :: 0 <= i < |init| ==> init[i] == ucs[i];
    }
  }

  /** A use case that never had the flag is written back whether it is
      selected or not: an absent flag differs from both `true` and `false`. */
  lemma UnsetFlagWrittenBack(ucs: seq<UseCase>, selected: seq<string>, i: nat)
    requires i < |ucs| && ucs[i].inRoadmap.None?
    ensures SetInRoadmap(ucs[i].id, ucs[i].id in selected) in WriteBack(ucs, selected)
  {
    WriteBackSpec(ucs, selected);
  }

  function WeeksOf(item: RoadmapItem): real
  {
    item.uc.estimatedTimeInWeeks.GetOr(0) as real
  }

  function FteOf(item: RoadmapItem): real
  {
    item.uc.estimatedFTE.GetOr(0.0)
  }

  /** The board's total weeks and FTE. */
  datatype RoadmapTotals = RoadmapTotals(time: real, fte: real)

  /** `totals`: missing estimates count as 0. */
  function Totals(items: seq<RoadmapItem>): RoadmapTotals
  {
    RoadmapTotals(SumBy(items, WeeksOf), SumBy(items, FteOf))
  }

  /** Totals do not depend on the items' order or columns. */
  lemma TotalsIgnoreOrder(items: seq<RoadmapItem>, other: seq<RoadmapItem>)
    requires multiset(items) == multiset(other)
    ensures Totals(items) == Totals(other)
  {
    SumByPermutation(items, other, WeeksOf);
    SumByPermutation(items, other, FteOf);
  }

  function AllocationsOf(item: RoadmapItem): seq<RoleAllocation>
  {
    item.uc.roleAllocations.GetOr([])
  }

  /** `getAllRoleAllocations`: every item's allocations, item after item. */
  function AllRoleAllocations(items: seq<RoadmapItem>): seq<RoleAllocation>
    decreases |items|
  {
    if items == [] then [] else AllRoleAllocations(items[..|items| - 1]) + AllocationsOf(items[|items| - 1])
  }

  /** Collecting splits over concatenated boards, and an allocation is
      collected exactly when some item holds it. */
  lemma {:induction false} AllRoleAllocationsSpec(a: seq<RoadmapItem>, b: seq<RoadmapItem>)
    ensures AllRoleAllocations(a + b) == AllRoleAllocations(a) + AllRoleAllocations(b)
    ensures forall x :: x in AllRoleAllocations(b) <==> exists i :: 0 <= i < |b| && x in AllocationsOf(b[i])
    decreases |b|
  {
    if b == [] {
      assert a + b == a;
    } else {
      var init := b[..|b| - 1];
      assert (a + b)[..|a + b| - 1] == a + init;
      AllRoleAllocationsSpec(a, init);
      forall x | x in AllRoleAllocations(b)
        ensures exists i :: 0 <= i < |b| && x in AllocationsOf(b[i])
      {
        if x in AllRoleAllocations(init) {
          var i :| 0 <= i < |init| && x in AllocationsOf(init[i]);
          assert init[i] == b[i];
        } else {
          assert x in AllocationsOf(b[|b| - 1]);
        }
      }
      forall x, i | 0 <= i < |b| && x in AllocationsOf(b[i])
        ensures x in AllRoleAllocations(b)
      {
        if i < |b| - 1 {
          assert init[i] == b[i];
        }
      }
    }
  }

  /** Where a card is dragged from or to. */
  datatype Place = Available | Column(phase: Phase)

  /** What the drag-and-drop library reports at the end of a drag. */
  datatype DragResult = DragResult(source: Place, sourceIndex: nat, destination: Option<Place>, destinationIndex: nat)

  function PhaseIs(ph: Phase): RoadmapItem -> bool
  {
    (item: RoadmapItem) => item.phase == ph
  }

  function PhaseIsNot(ph: Phase): RoadmapItem -> bool
  {
    (item: RoadmapItem) => item.phase != ph
  }

  function PhaseOutside(a: Phase, b: Phase): RoadmapItem -> bool
  {
    (item: RoadmapItem) => item.phase != a && item.phase != b
  }

  /** A card moved to another column: the other columns' items, then the
      source column without it, then the destination column with it
      (re-phased) inserted at the drop position. */
  function CrossPhaseMove(items: seq<RoadmapItem>, from: Phase, i: nat, to: Phase, j: nat): seq<RoadmapItem>
    requires from != to && i < |Filter(items, PhaseIs(from))|
  {
    var source := Filter(items, PhaseIs(from));
    var dest := Filter(items, PhaseIs(to));
    Filter(items, PhaseOutside(from, to)) + RemoveAt(source, i) + InsertAt(dest, j, source[i].(phase := to))
  }

  lemma PhaseFiltersSplit(items: seq<RoadmapItem>, from: Phase, to: Phase)
    requires from != to
    ensures multiset(Filter(items, PhaseOutside(from, to))) + multiset(Filter(items, PhaseIs(from)))
            + multiset(Filter(items, PhaseIs(to))) == multiset(items)
  {
    FilterSplit(items, PhaseOutside(from, to), PhaseIs(from), PhaseIs(to));
  }

  /** Replacing an item by one with the same estimates keeps the totals. */
  lemma ReplaceKeepsTotals(items: seq<RoadmapItem>, k: nat, x: RoadmapItem)
    requires k < |items| && WeeksOf(x) == WeeksOf(items[k]) && FteOf(x) == FteOf(items[k])
    ensures Totals(items[k := x]) == Totals(items)
  {
    var a, b := items[..k], items[k + 1..];
    assert items == a + [items[k]] + b;
    assert items[k := x] == a + [x] + b;
    SumByConcat(a + [items[k]], b, WeeksOf);
    SumByConcat(a, [items[k]], WeeksOf);
    SumByConcat(a + [x], b, WeeksOf);
    SumByConcat(a, [x], WeeksOf);
    SumByConcat(a + [items[k]], b, FteOf);
    SumByConcat(a, [items[k]], FteOf);
    SumByConcat(a + [x], b, FteOf);
    SumByConcat(a, [x], FteOf);
    assert [x][..0] == [] && [items[k]][..0] == [];
  }

  /** A cross-column move replaces the moved item by its re-phased copy and
      keeps every other item as it was. */
  lemma CrossPhaseMovePermutes(items: seq<RoadmapItem>, from: Phase, i: nat, to: Phase, j: nat)
    requires from != to && i < |Filter(items, PhaseIs(from))|
    ensures var moved := Filter(items, PhaseIs(from))[i];
            && moved in items && moved.phase == from
            && multiset(CrossPhaseMove(items, from, i, to, j)) == multiset(items) - multiset{moved} + multiset{moved.(phase := to)}
  {
    var source := Filter(items, PhaseIs(from));
    assert source[i] in source;
    PhaseFiltersSplit(items, from, to);
  }

  /** The moved card sits at the drop position among the destination's items. */
  lemma CrossPhaseMovePosition(items: seq<RoadmapItem>, from: Phase, i: nat, to: Phase, j: nat)
    requires from != to && i < |Filter(items, PhaseIs(from))|
    ensures var r := CrossPhaseMove(items, from, i, to, j);
            var dest := Filter(items, PhaseIs(to));
            && |r| == |items|
            && r[|items| - |dest| - 1 + (if j <= |dest| then j else |dest|)] == Filter(items, PhaseIs(from))[i].(phase := to)
  {
    var source := Filter(items, PhaseIs(from));
    var dest := Filter(items, PhaseIs(to));
    var others := Filter(items, PhaseOutside(from, to));
    PhaseFiltersSplit(items, from, to);
    assert |others| + |source| + |dest| == |items| by {
      assert |multiset(others) + multiset(source) + multiset(dest)| == |multiset(items)|;
    }
    var r := CrossPhaseMove(items, from, i, to, j);
    var front := others + RemoveAt(source, i);
    assert r == front + InsertAt(dest, j, source[i].(phase := to));
    var p := if j <= |dest| then j else |dest|;
    assert r[|front| + p] == InsertAt(dest, j, source[i].(phase := to))[p];
  }

  /** A cross-column move does not change the totals. */
  lemma CrossPhaseMoveTotals(items: seq<RoadmapItem>, from: Phase, i: nat, to: Phase, j: nat)
    requires from != to && i < |Filter(items, PhaseIs(from))|
    ensures Totals(CrossPhaseMove(items, from, i, to, j)) == Totals(items)
  {
    var moved := Filter(items, PhaseIs(from))[i];
    CrossPhaseMovePermutes(items, from, i, to, j);
    var k :| 0 <= k < |items| && items[k] == moved;
    var swapped := items[k := moved.(phase := to)];
    assert multiset(swapped) == multiset(items) - multiset{moved} + multiset{moved.(phase := to)};
    TotalsIgnoreOrder(CrossPhaseMove(items, from, i, to, j), swapped);
    ReplaceKeepsTotals(items, k, moved.(phase := to));
  }

  /** A card moved within its column: the other columns' items, then the
      column with the card taken out and put back at the drop position. */
  function SamePhaseMove(items: seq<RoadmapItem>, ph: Phase, i: nat, j: nat): seq<RoadmapItem>
    requires i < |Filter(items, PhaseIs(ph))|
  {
    var column := Filter(items, PhaseIs(ph));
    Filter(items, PhaseIsNot(ph)) + InsertAt(RemoveAt(column, i), j, column[i])
  }

  /** The reordered column after a move within it. */
  function ReorderedColumn(items: seq<RoadmapItem>, ph: Phase, i: nat, j: nat): seq<RoadmapItem>
    requires i < |Filter(items, PhaseIs(ph))|
  {
    var column := Filter(items, PhaseIs(ph));
    InsertAt(RemoveAt(column, i), j, column[i])
  }

  /** The new `roadmapOrder` of every item of the column: its position. */
  function OrderUpdates(column: seq<RoadmapItem>): (r: seq<UseCaseUpdate>)
    ensures |r| == |column| && forall k :: 0 <= k < |column| ==> r[k] == SetOrder(column[k].uc.id, k)
  {
    seq(|column|, k requires 0 <= k < |column| => SetOrder(column[k].uc.id, k))
  }

  /** The `forEach` over the reordered column: one update per item, in order. */
  method SendOrders(column: seq<RoadmapItem>) returns (sent: seq<UseCaseUpdate>)
    ensures sent == OrderUpdates(column)
  {
    sent := [];
    var k := 0;
    while k < |column|
      invariant 0 <= k <= |column|
      invariant sent == OrderUpdates(column)[..k]
    {
      sent := sent + [SetOrder(column[k].uc.id, k)];
      k := k + 1;
    }
  }

  lemma SamePhaseMovePermutes(items: seq<RoadmapItem>, ph: Phase, i: nat, j: nat)
    requires i < |Filter(items, PhaseIs(ph))|
    ensures multiset(SamePhaseMove(items, ph, i, j)) == multiset(items)
  {
    var column := Filter(items, PhaseIs(ph));
    MoveKeepsElements(Filter(items, PhaseIsNot(ph)), column, i, j);
    FilterSplit2(items, PhaseIsNot(ph), PhaseIs(ph));
  }

  /** Taking an element out and putting it back elsewhere keeps the elements. */
  lemma MoveKeepsElements<T>(others: seq<T>, column: seq<T>, i: nat, j: nat)
    requires i < |column|
    ensures multiset(others + InsertAt(RemoveAt(column, i), j, column[i])) == multiset(others) + multiset(column)
  {
    assert column[i] in multiset(column);
  }

  /** A move within a column permutes the items, keeps the totals, and
      puts the card at the drop position of its column. */
  lemma SamePhaseMoveSpec(items: seq<RoadmapItem>, ph: Phase, i: nat, j: nat)
    requires i < |Filter(items, PhaseIs(ph))|
    ensures var column := Filter(items, PhaseIs(ph));
            var reordered := ReorderedColumn(items, ph, i, j);
            && multiset(SamePhaseMove(items, ph, i, j)) == multiset(items)
            && Totals(SamePhaseMove(items, ph, i, j)) == Totals(items)
            && reordered[if j < |column| then j else |column| - 1] == column[i]
            && multiset(reordered) == multiset(column)
  {
    var column := Filter(items, PhaseIs(ph));
    assert column[i] in multiset(column);
    SamePhaseMovePermutes(items, ph, i, j);
    TotalsIgnoreOrder(SamePhaseMove(items, ph, i, j), items);
  }

  /** The else branch of the drop handler as written, for any place: the
      column's items are those whose phase is the place, so for the
      available list there are none, and the card taken out of that empty
      list is `undefined` (here `None`). */
  function SameColumnAsWritten(items: seq<RoadmapItem>, place: Place, i: nat, j: nat): seq<Option<RoadmapItem>>
  {
    var column := if place.Column? then Filter(items, PhaseIs(place.phase)) else [];
    var others := if place.Column? then Filter(items, PhaseIsNot(place.phase)) else items;
    var moved := if i < |column| then Some(column[i]) else None;
    var rest := if i < |column| then RemoveAt(column, i) else column;
    Wrap(others) + InsertAt(Wrap(rest), j, moved)
  }

  function Wrap(s: seq<RoadmapItem>): (r: seq<Option<RoadmapItem>>)
    ensures |r| == |s| && forall k :: 0 <= k < |s| ==> r[k] == Some(s[k])
  {
    seq(|s|, k requires 0 <= k < |s| => Some(s[k]))
  }

  /** Reordering the available list appends an `undefined` entry to the
      board's items (whose `id` the order update then reads). */
  lemma AvailableReorderAsWritten(items: seq<RoadmapItem>, i: nat, j: nat)
    ensures SameColumnAsWritten(items, Available, i, j) == Wrap(items) + [None]
  {
  }

  /** The use cases not on the roadmap, as the available list shows them. */
  function AvailableUseCases(ucs: seq<UseCase>, selected: seq<string>): seq<UseCase>
  {
    Filter(ucs, (uc: UseCase) => uc.id !in selected)
  }

  /** The board's state. `updates` records, oldest first, every change sent
      to the use-case store. */
  class Board {
    var useCases: seq<UseCase>
    var view: View
    var roadmapItems: seq<RoadmapItem>
    var selectedUseCases: seq<string>
    var updates: seq<UseCaseUpdate>

    constructor(ucs: seq<UseCase>, v: View)
      ensures useCases == ucs && view == v && roadmapItems == [] && selectedUseCases == [] && updates == []
    {
      useCases := ucs;
      view := v;
      roadmapItems := [];
      selectedUseCases := [];
      updates := [];
    }

    /** The first effect: choose the initial selection when there are use cases. */
    method Initialize()
      modifies this
      ensures InitialSelection(useCases).Some? ==> selectedUseCases == InitialSelection(useCases).value
      ensures InitialSelection(useCases).None? ==> selectedUseCases == old(selectedUseCases)
      ensures useCases == old(useCases) && view == old(view)
      ensures roadmapItems == old(roadmapItems) && updates == old(updates)
    {
      var initial := InitialSelection(useCases);
      if initial.Some? {
        selectedUseCases := initial.value;
      }
    }

    /** The second effect: rebuild the items and write the flags back. */
    method Refresh()
      modifies this
      ensures roadmapItems == Items(useCases, selectedUseCases, view)
      ensures updates == old(updates) + WriteBack(useCases, selectedUseCases)
      ensures useCases == old(useCases) && view == old(view) && selectedUseCases == old(selectedUseCases)
    {
      roadmapItems := Items(useCases, selectedUseCases, view);
      var sent := SyncMembership(useCases, selectedUseCases);
      updates := updates + sent;
    }

    method AddUseCaseToRoadmap(id: string)
      modifies this
      ensures selectedUseCases == old(selectedUseCases) + [id]
      ensures useCases == old(useCases) && view == old(view) && roadmapItems == old(roadmapItems) && updates == old(updates)
    {
      selectedUseCases := selectedUseCases + [id];
    }

    method RemoveUseCaseFromRoadmap(id: string)
      modifies this
      ensures selectedUseCases == Filter(old(selectedUseCases), (s: string) => s != id)
      ensures useCases == old(useCases) && view == old(view) && roadmapItems == old(roadmapItems) && updates == old(updates)
    {
      selectedUseCases := Filter(selectedUseCases, (s: string) => s != id);
    }

    /** `updateEstimatedTime`: sent to the store and set on the matching items. */
    method UpdateEstimatedTime(id: string, weeks: int)
      modifies this
      ensures updates == old(updates) + [SetWeeks(id, weeks)]
      ensures |roadmapItems| == |old(roadmapItems)|
      ensures forall k :: 0 <= k < |roadmapItems| ==>
                roadmapItems[k] == if old(roadmapItems)[k].uc.id == id
                                   then old(roadmapItems)[k].(uc := old(roadmapItems)[k].uc.(estimatedTimeInWeeks := Some(weeks)))
                                   else old(roadmapItems)[k]
      ensures useCases == old(useCases) && view == old(view) && selectedUseCases == old(selectedUseCases)
    {
      updates := updates + [SetWeeks(id, weeks)];
      var items := roadmapItems;
      roadmapItems := seq(|items|, k requires 0 <= k < |items| =>
        if items[k].uc.id == id then items[k].(uc := items[k].uc.(estimatedTimeInWeeks := Some(weeks))) else items[k]);
    }

    /** `updateEstimatedFTE`. */
    method UpdateEstimatedFte(id: string, fte: real)
      modifies this
      ensures updates == old(updates) + [SetFte(id, fte)]
      ensures |roadmapItems| == |old(roadmapItems)|
      ensures forall k :: 0 <= k < |roadmapItems| ==>
                roadmapItems[k] == if old(roadmapItems)[k].uc.id == id
                                   then old(roadmapItems)[k].(uc := old(roadmapItems)[k].uc.(estimatedFTE := Some(fte)))
                                   else old(roadmapItems)[k]
      ensures useCases == old(useCases) && view == old(view) && selectedUseCases == old(selectedUseCases)
    {
      updates := updates + [SetFte(id, fte)];
      var items := roadmapItems;
      roadmapItems := seq(|items|, k requires 0 <= k < |items| =>
        if items[k].uc.id == id then items[k].(uc := items[k].uc.(estimatedFTE := Some(fte))) else items[k]);
    }

    /** `updateRoleAllocations`. */
    method UpdateRoleAllocations(id: string, allocations: seq<RoleAllocation>)
      modifies this
      ensures updates == old(updates) + [SetAllocations(id, allocations)]
      ensures |roadmapItems| == |old(roadmapItems)|
      ensures forall k :: 0 <= k < |roadmapItems| ==>
                roadmapItems[k] == if old(roadmapItems)[k].uc.id == id
                                   then old(roadmapItems)[k].(uc := old(roadmapItems)[k].uc.(roleAllocations := Some(allocations)))
                                   else old(roadmapItems)[k]
      ensures useCases == old(useCases) && view == old(view) && selectedUseCases == old(selectedUseCases)
    {
      updates := updates + [SetAllocations(id, allocations)];
      var items := roadmapItems;
      roadmapItems := seq(|items|, k requires 0 <= k < |items| =>
        if items[k].uc.id == id then items[k].(uc := items[k].uc.(roleAllocations := Some(allocations))) else items[k]);
    }

    /** `handleDragEnd`, with a drop inside the available list changing
      nothing (as written it appends `undefined`; see
      `AvailableReorderAsWritten`). A drag reports a source index inside
      the list it starts from. */
    method HandleDragEnd(r: DragResult)
      requires r.destination.Some? && r.source == Available && r.destination != Some(Available) ==>
                 r.sourceIndex < |AvailableUseCases(useCases, selectedUseCases)|
      requires r.destination.Some? && r.source.Column? ==> r.sourceIndex < |Filter(roadmapItems, PhaseIs(r.source.phase))|
      modifies this
      ensures useCases == old(useCases) && view == old(view)
      ensures r.destination.None? || (r.source == Available && r.destination == Some(Available)) ==>
                roadmapItems == old(roadmapItems) && selectedUseCases == old(selectedUseCases) && updates == old(updates)
      ensures r.destination.Some? && r.source == Available && r.destination != Some(Available) ==>
                && selectedUseCases == old(selectedUseCases) + [AvailableUseCases(useCases, old(selectedUseCases))[r.sourceIndex].id]
                && roadmapItems == old(roadmapItems) && updates == old(updates)
      ensures r.destination == Some(Available) && r.source.Column? ==>
                var movedId := Filter(old(roadmapItems), PhaseIs(r.source.phase))[r.sourceIndex].uc.id;
                && selectedUseCases == Filter(old(selectedUseCases), (s: string) => s != movedId)
                && roadmapItems == old(roadmapItems) && updates == old(updates)
      ensures r.destination.Some? && r.source.Column? && r.destination.value.Column? && r.source != r.destination.value ==>
                var from, to := r.source.phase, r.destination.value.phase;
                && roadmapItems == CrossPhaseMove(old(roadmapItems), from, r.sourceIndex, to, r.destinationIndex)
                && updates == old(updates) + [SetPhase(Filter(old(roadmapItems), PhaseIs(from))[r.sourceIndex].uc.id, to)]
                && selectedUseCases == old(selectedUseCases)
      ensures r.destination == Some(r.source) && r.source.Column? ==>
                var ph := r.source.phase;
                && roadmapItems == SamePhaseMove(old(roadmapItems), ph, r.sourceIndex, r.destinationIndex)
                && updates == old(updates) + OrderUpdates(ReorderedColumn(old(roadmapItems), ph, r.sourceIndex, r.destinationIndex))
                && selectedUseCases == old(selectedUseCases)
    {
      if r.destination.None? {
        return;
      }
      var destination := r.destination.value;
      if r.source == Available && destination != Available {
        var available := AvailableUseCases(useCases, selectedUseCases);
        AddUseCaseToRoadmap(available[r.sourceIndex].id);
        return;
      }
      if r.source != Available && destination == Available {
        var column := Filter(roadmapItems, PhaseIs(r.source.phase));
        RemoveUseCaseFromRoadmap(column[r.sourceIndex].uc.id);
        return;
      }
      if r.source != destination {
        MoveAcross(r.source.phase, r.sourceIndex, destination.phase, r.destinationIndex);
      } else if r.source.Column? {
        MoveWithin(r.source.phase, r.sourceIndex, r.destinationIndex);
      }
    }

    /** The cross-column branch of `handleDragEnd`. */
    method MoveAcross(from: Phase, i: nat, to: Phase, j: nat)
      requires from != to && i < |Filter(roadmapItems, PhaseIs(from))|
      modifies this
      ensures roadmapItems == CrossPhaseMove(old(roadmapItems), from, i, to, j)
      ensures updates == old(updates) + [SetPhase(Filter(old(roadmapItems), PhaseIs(from))[i].uc.id, to)]
      ensures useCases == old(useCases) && view == old(view) && selectedUseCases == old(selectedUseCases)
    {
      var moved := Filter(roadmapItems, PhaseIs(from))[i];
      roadmapItems := CrossPhaseMove(roadmapItems, from, i, to, j);
      updates := updates + [SetPhase(moved.uc.id, to)];
    }

    /** The same-column branch of `handleDragEnd`: reorder, then send every
      item of the column its new position. */
    method MoveWithin(ph: Phase, i: nat, j: nat)
      requires i < |Filter(roadmapItems, PhaseIs(ph))|
      modifies this
      ensures roadmapItems == SamePhaseMove(old(roadmapItems), ph, i, j)
      ensures updates == old(updates) + OrderUpdates(ReorderedColumn(old(roadmapItems), ph, i, j))
      ensures useCases == old(useCases) && view == old(view) && selectedUseCases == old(selectedUseCases)
    {
      var column := ReorderedColumn(roadmapItems, ph, i, j);
      roadmapItems := SamePhaseMove(roadmapItems, ph, i, j);
      var sent := SendOrders(column);
      updates := updates + sent;
    }

    function BoardTotals(): RoadmapTotals
      reads this
    {
      Totals(roadmapItems)
    }
  }
}
