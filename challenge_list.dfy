/** The challenge list: selected challenges first, newest first within
    each group, sorted on a copy; an empty list shows a notice instead. */
module ChallengeList {
  import opened Seqs
  import opened Challenges

  /** Selected before unselected, then the later `createdAt` first. */
  function SelectedFirst(): Comparator<Challenge>
  {
    (a: Challenge, b: Challenge) =>
      if IsSelected(a) && !IsSelected(b) then -1.0
      else if !IsSelected(a) && IsSelected(b) then 1.0
      else (b.createdAt - a.createdAt) as real
  }

  /** What the list renders. */
  datatype ListView = EmptyNotice | Cards(cards: seq<Challenge>)

  function Rendered(cs: seq<Challenge>): ListView
  {
    if |cs| == 0 then EmptyNotice else Cards(Sort(cs, SelectedFirst()))
  }

  /** "May come first" under the comparator: selected before unselected,
      and within a group the newer one. */
  lemma SelectedFirstOrder(a: Challenge, b: Challenge)
    ensures SelectedFirst()(a, b) <= 0.0 <==>
              (IsSelected(a) && !IsSelected(b)) || (IsSelected(a) == IsSelected(b) && a.createdAt >= b.createdAt)
  {
  }

  /** The comparator is consistent on any list. */
  lemma SelectedFirstConsistent(cs: seq<Challenge>)
    ensures TotalPreorderOn(SelectedFirst(), cs)
  {
    forall a, b | a in cs && b in cs
      ensures SelectedFirst()(a, b) <= 0.0 || SelectedFirst()(b, a) <= 0.0
    {
      SelectedFirstOrder(a, b);
      SelectedFirstOrder(b, a);
    }
    forall a, b, c | a in cs && b in cs && c in cs && SelectedFirst()(a, b) <= 0.0 && SelectedFirst()(b, c) <= 0.0
      ensures SelectedFirst()(a, c) <= 0.0
    {
      SelectedFirstOrder(a, b);
      SelectedFirstOrder(b, c);
      SelectedFirstOrder(a, c);
    }
  }

  /** An empty list renders only the notice; otherwise the cards are a
      permutation of the challenges with every selected one ahead of every
      unselected one and, within each group, newer ones first. */
  lemma RenderedSpec(cs: seq<Challenge>)
    ensures Rendered(cs).EmptyNotice? <==> cs == []
    ensures Rendered(cs).Cards? ==>
              var r := Rendered(cs).cards;
              && multiset(r) == multiset(cs)
              && (forall i, j :: 0 <= i < j < |r| && IsSelected(r[j]) ==> IsSelected(r[i]))
              && (forall i, j :: 0 <= i < j < |r| && IsSelected(r[i]) == IsSelected(r[j]) ==> r[i].createdAt >= r[j].createdAt)
  {
    if cs != [] {
      var r := Sort(cs, SelectedFirst());
      SelectedFirstConsistent(cs);
      SortSorted(cs, SelectedFirst(), cs);
      forall i, j | 0 <= i < j < |r|
        ensures IsSelected(r[j]) ==> IsSelected(r[i])
        ensures IsSelected(r[i]) == IsSelected(r[j]) ==> r[i].createdAt >= r[j].createdAt
      {
        assert SelectedFirst()(r[i], r[j]) <= 0.0;
        SelectedFirstOrder(r[i], r[j]);
      }
    }
  }

  /** A list already in that order is rendered as it is. */
  lemma OrderedRenderedAsIs(cs: seq<Challenge>)
    requires cs != []
    requires forall i, j :: 0 <= i < j < |cs| ==>
               (IsSelected(cs[i]) && !IsSelected(cs[j])) || (IsSelected(cs[i]) == IsSelected(cs[j]) && cs[i].createdAt >= cs[j].createdAt)
    ensures Rendered(cs) == Cards(cs)
  {
    forall i, j | 0 <= i < j < |cs|
      ensures SelectedFirst()(cs[i], cs[j]) <= 0.0
    {
      SelectedFirstOrder(cs[i], cs[j]);
    }
    SortKeepsOrder(cs, SelectedFirst());
  }
}
