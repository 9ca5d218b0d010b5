/** The card list: a status filter and a search narrow the use cases,
    then one of four keys orders them, largest first. */
module UseCaseList {
  import opened Seqs
  import opened Types
  import opened Text
  import SmartFiltering

  datatype ListSort = ListByScore | ListByImpact | ListByEase | ListByRecent

  /** `getImpactValue` / `getEaseValue`: the legacy level as a number. */
  function LevelValue(level: string): (r: nat)
    ensures r <= 3
    ensures r == 3 <==> level == "high"
    ensures r == 2 <==> level == "medium"
    ensures r == 1 <==> level == "low"
    ensures r == 0 <==> level != "high" && level != "medium" && level != "low"
  {
    match level
    case "high" => 3
    case "medium" => 2
    case "low" => 1
    case _ => 0
  }

  /** The quantity a sort key orders by. */
  function Rank(key: ListSort, uc: UseCase): real
  {
    match key
    case ListByScore => uc.score
    case ListByImpact => LevelValue(uc.impact) as real
    case ListByEase => LevelValue(uc.ease) as real
    case ListByRecent => uc.updatedAt as real
  }

  /** Every key compares `b` against `a`, so larger ranks come first. */
  function ListComparator(key: ListSort): Comparator<UseCase>
  {
    (a: UseCase, b: UseCase) => Rank(key, b) - Rank(key, a)
  }

  /** The status filter ("all" keeps every status), then the search when
      the query does not trim to nothing. */
  predicate Keep(uc: UseCase, status: string, query: string)
  {
    && (status == "all" || uc.status == status)
    && (Trim(query) == "" || SmartFiltering.SearchMatches(uc, Lower(query)))
  }

  function Kept(ucs: seq<UseCase>, status: string, query: string): seq<UseCase>
  {
    Filter(ucs, (uc: UseCase) => Keep(uc, status, query))
  }

  /** The list as shown. */
  function Shown(ucs: seq<UseCase>, status: string, query: string, key: ListSort): seq<UseCase>
  {
    Sort(Kept(ucs, status, query), ListComparator(key))
  }

  /** The list shows a permutation of the kept use cases, which are exactly
      those of the input with the status asked for (any, for "all") that
      match a non-blank query, in input order. */
  lemma ShownSpec(ucs: seq<UseCase>, status: string, query: string, key: ListSort)
    ensures multiset(Shown(ucs, status, query, key)) == multiset(Kept(ucs, status, query))
    ensures IsSubsequence(Kept(ucs, status, query), ucs)
    ensures forall uc :: uc in Shown(ucs, status, query, key) <==>
              && uc in ucs
              && (status == "all" || uc.status == status)
              && (IsBlank(query) || SmartFiltering.SearchMatches(uc, Lower(query)))
  {
    TrimEmptyIffBlank(query);
    var s := Kept(ucs, status, query);
    FilterIsSubsequence(ucs, (uc: UseCase) => Keep(uc, status, query));
    PermutationMembers(Shown(ucs, status, query, key), s);
  }

  /** With "all" and a blank query the list shows every use case. */
  lemma NothingFiltered(ucs: seq<UseCase>, query: string, key: ListSort)
    requires IsBlank(query)
    ensures multiset(Shown(ucs, "all", query, key)) == multiset(ucs)
  {
    TrimEmptyIffBlank(query);
    FilterKeepsAll(ucs, (uc: UseCase) => Keep(uc, "all", query));
  }

  /** The shown list never increases in the chosen key: highest score,
      highest impact or ease level, most recently updated first. */
  lemma ShownOrdered(ucs: seq<UseCase>, status: string, query: string, key: ListSort)
    ensures var r := Shown(ucs, status, query, key);
            forall i, j :: 0 <= i < j < |r| ==> Rank(key, r[i]) >= Rank(key, r[j])
  {
    var cmp := ListComparator(key);
    var s := Kept(ucs, status, query);
    SortSorted(s, cmp, s);
    var r := Sort(s, cmp);
    forall i, j | 0 <= i < j < |r|
      ensures Rank(key, r[i]) >= Rank(key, r[j])
    {
      assert cmp(r[i], r[j]) <= 0.0;
    }
  }

  /** Use cases with the same rank keep their input order. */
  lemma ShownStable(s: seq<UseCase>, key: ListSort)
    requires forall i, j :: 0 <= i < j < |s| ==> Rank(key, s[i]) >= Rank(key, s[j])
    ensures Sort(s, ListComparator(key)) == s
  {
    SortKeepsOrder(s, ListComparator(key));
  }
}
