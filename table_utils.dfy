/** The table's data pipeline: a case-insensitive search over the use
    cases, then a sort on the chosen column in the chosen direction. */
module TableUtils {
  import opened Seqs
  import opened Types
  import opened Text

  datatype SortDirection = Asc | Desc

  /** The column sorted on (none keeps the search order) and the direction. */
  datatype SortConfig = SortConfig(key: Option<string>, direction: SortDirection)

  /** The search matches title, description, business objective, status,
      a team or a technology, each lower-cased, against the lower-cased query. */
  predicate Matches(uc: UseCase, query: string)
  {
    || Includes(Lower(uc.title), query)
    || Includes(Lower(uc.description), query)
    || Includes(Lower(uc.businessObjective), query)
    || Includes(Lower(uc.status), query)
    || SomeIncludes(uc.team, query)
    || SomeIncludes(uc.technologies, query)
  }

  /** The search step: a query that trims to nothing keeps everything. */
  function Searched(ucs: seq<UseCase>, query: string): seq<UseCase>
  {
    Filter(ucs, (uc: UseCase) => Trim(query) == "" || Matches(uc, Lower(query)))
  }

  lemma SearchedSpec(ucs: seq<UseCase>, query: string)
    ensures IsBlank(query) ==> Searched(ucs, query) == ucs
    ensures !IsBlank(query) ==>
              forall uc :: uc in Searched(ucs, query) <==> uc in ucs && Matches(uc, Lower(query))
    ensures IsSubsequence(Searched(ucs, query), ucs)
  {
    TrimEmptyIffBlank(query);
    var keep := (uc: UseCase) => Trim(query) == "" || Matches(uc, Lower(query));
    FilterIsSubsequence(ucs, keep);
    if IsBlank(query) {
      FilterKeepsAll(ucs, keep);
    }
  }

  /** The part of `s` before the first `c` (all of it when there is none). */
  function Before(s: string, c: char): (r: string)
    ensures r <= s && c !in r
    ensures |r| < |s| ==> s[|r|] == c
    decreases |s|
  {
    if s == [] || s[0] == c then []
    else
      var r := Before(s[1..], c);
      assert s == [s[0]] + s[1..];
      [s[0]] + r
  }

  /** What `key.split('.')` yields for a key with a dot: the first two pieces. */
  function DottedParts(key: string): (string, string)
  {
    var parent := Before(key, '.');
    var rest := if |parent| < |key| then key[|parent| + 1..] else [];
    (parent, Before(rest, '.'))
  }

  lemma DottedPartsOf(parent: string, child: string)
    requires '.' !in parent && '.' !in child
    ensures DottedParts(parent + "." + child) == (parent, child)
  {
    var key := parent + "." + child;
    BeforeUnique(key, '.', parent);
    assert key[|parent| + 1..] == child;
    BeforeUnique(child, '.', child);
  }

  /** `Before` is the only prefix without `c` that ends at a `c` or at the end. */
  lemma BeforeUnique(s: string, c: char, p: string)
    requires p <= s && c !in p && (|p| < |s| ==> s[|p|] == c)
    ensures Before(s, c) == p
  {
    var r := Before(s, c);
    assert |r| == |p|;
  }

  /** A column's value in one row: a string, a number, a date (as an
      instant) or something none of the comparisons handles. */
  datatype Value = Str(s: string) | Num(x: real) | Time(t: int) | Neither

  function FieldValue(uc: UseCase, key: string): Value
  {
    match key
    case "id" => Str(uc.id)
    case "title" => Str(uc.title)
    case "description" => Str(uc.description)
    case "impact" => Str(uc.impact)
    case "ease" => Str(uc.ease)
    case "businessObjective" => Str(uc.businessObjective)
    case "expectedOutcome" => Str(uc.expectedOutcome)
    case "successCriteria" => Str(uc.successCriteria)
    case "estimatedTime" => Str(uc.estimatedTime)
    case "estimatedResources" => Str(uc.estimatedResources)
    case "status" => Str(uc.status)
    case "projectId" => if uc.projectId.Some? then Str(uc.projectId.value) else Neither
    case "teamId" => if uc.teamId.Some? then Str(uc.teamId.value) else Neither
    case "teamName" => if uc.teamName.Some? then Str(uc.teamName.value) else Neither
    case "roadmapPhase" => if uc.roadmapPhase.Some? then Str(uc.roadmapPhase.value.Tag()) else Neither
    case "score" => Num(uc.score)
    case "estimatedTimeInWeeks" => if uc.estimatedTimeInWeeks.Some? then Num(uc.estimatedTimeInWeeks.value as real) else Neither
    case "estimatedFTE" => if uc.estimatedFTE.Some? then Num(uc.estimatedFTE.value) else Neither
    case "roadmapOrder" => if uc.roadmapOrder.Some? then Num(uc.roadmapOrder.value as real) else Neither
    case "createdAt" => Time(uc.createdAt)
    case "updatedAt" => Time(uc.updatedAt)
    case _ => Neither
  }

  /** `scores?.[k] ?? 0`. */
  function ScoreOrZero(uc: UseCase, k: string): real
  {
    if k in uc.scores then uc.scores[k] as real else 0.0
  }

  function Signed(d: SortDirection, x: real, y: real): real
  {
    if d == Asc then x - y else y - x
  }

  /** The table's comparator for a column key; `locale` is `localeCompare`. */
  function Compare(key: string, d: SortDirection, locale: Comparator<string>, a: UseCase, b: UseCase): real
  {
    if '.' in key then
      var (parent, child) := DottedParts(key);
      if parent == "scores" then Signed(d, ScoreOrZero(a, child), ScoreOrZero(b, child)) else 0.0
    else
      match (FieldValue(a, key), FieldValue(b, key))
      case (Str(x), Str(y)) => if d == Asc then locale(x, y) else locale(y, x)
      case (Num(x), Num(y)) => Signed(d, x, y)
      case (Time(x), Time(y)) => Signed(d, x as real, y as real)
      case _ => 0.0
  }

  /** Descending compares as ascending with the arguments exchanged. */
  lemma CompareFlips(key: string, locale: Comparator<string>, a: UseCase, b: UseCase)
    ensures Compare(key, Desc, locale, a, b) == Compare(key, Asc, locale, b, a)
  {
  }

  function Comparer(key: string, d: SortDirection, locale: Comparator<string>): Comparator<UseCase>
  {
    (a: UseCase, b: UseCase) => Compare(key, d, locale, a, b)
  }

  /** `getSortedFilteredData`. */
  function SortedFilteredData(ucs: seq<UseCase>, query: string, config: SortConfig, locale: Comparator<string>): seq<UseCase>
  {
    var filtered := Searched(ucs, query);
    if config.key.None? then filtered
    else Sort(filtered, Comparer(config.key.value, config.direction, locale))
  }

  /** Without a key the search result comes back as it is; with one, a
      permutation of it. */
  lemma SortedFilteredDataSpec(ucs: seq<UseCase>, query: string, config: SortConfig, locale: Comparator<string>)
    ensures config.key.None? ==> SortedFilteredData(ucs, query, config, locale) == Searched(ucs, query)
    ensures multiset(SortedFilteredData(ucs, query, config, locale)) == multiset(Searched(ucs, query))
  {
  }

  /** The comparator on `scores.<id>` compares that score, missing as 0. */
  lemma ScoreCompare(id: string, d: SortDirection, locale: Comparator<string>, a: UseCase, b: UseCase)
    requires '.' !in id
    ensures Compare("scores." + id, d, locale, a, b) == Signed(d, ScoreOrZero(a, id), ScoreOrZero(b, id))
  {
    var key := "scores." + id;
    assert "scores" + "." + id == key;
    DottedPartsOf("scores", id);
    assert key[6] == '.';
  }

  /** Sorting on `scores.<id>` orders the rows by that score, a missing
      score counting as 0: ascending or descending as asked. */
  lemma ScoreColumnSorted(ucs: seq<UseCase>, query: string, id: string, d: SortDirection, locale: Comparator<string>)
    requires '.' !in id
    ensures var r := SortedFilteredData(ucs, query, SortConfig(Some("scores." + id), d), locale);
            forall i, j :: 0 <= i < j < |r| ==>
              if d == Asc then ScoreOrZero(r[i], id) <= ScoreOrZero(r[j], id)
              else ScoreOrZero(r[i], id) >= ScoreOrZero(r[j], id)
  {
    var cmp := Comparer("scores." + id, d, locale);
    var filtered := Searched(ucs, query);
    forall a, b
      ensures cmp(a, b) == Signed(d, ScoreOrZero(a, id), ScoreOrZero(b, id))
    {
      ScoreCompare(id, d, locale, a, b);
    }
    SortedByScore(filtered, cmp, id, d);
    assert SortedFilteredData(ucs, query, SortConfig(Some("scores." + id), d), locale) == Sort(filtered, cmp);
  }

  /** Sorting with a comparator that subtracts the scores orders by score. */
  lemma SortedByScore(s: seq<UseCase>, cmp: Comparator<UseCase>, id: string, d: SortDirection)
    requires forall a, b :: cmp(a, b) == Signed(d, ScoreOrZero(a, id), ScoreOrZero(b, id))
    ensures var r := Sort(s, cmp);
            forall i, j :: 0 <= i < j < |r| ==>
              if d == Asc then ScoreOrZero(r[i], id) <= ScoreOrZero(r[j], id)
              else ScoreOrZero(r[i], id) >= ScoreOrZero(r[j], id)
  {
    SortSorted(s, cmp, s);
    var r := Sort(s, cmp);
    forall i, j | 0 <= i < j < |r|
      ensures if d == Asc then ScoreOrZero(r[i], id) <= ScoreOrZero(r[j], id)
              else ScoreOrZero(r[i], id) >= ScoreOrZero(r[j], id)
    {
      assert cmp(r[i], r[j]) <= 0.0;
    }
  }

  /** A dotted key on anything but the scores compares every pair as
      equal, so the rows keep their search order. */
  lemma OtherDottedKeyKeepsOrder(ucs: seq<UseCase>, query: string, parent: string, child: string,
                                 d: SortDirection, locale: Comparator<string>)
    requires '.' !in parent && '.' !in child && parent != "scores"
    ensures SortedFilteredData(ucs, query, SortConfig(Some(parent + "." + child), d), locale) == Searched(ucs, query)
  {
    var key := parent + "." + child;
    DottedPartsOf(parent, child);
    assert key[|parent|] == '.';
    var cmp := Comparer(key, d, locale);
    forall a, b
      ensures cmp(a, b) == 0.0
    {
      assert cmp(a, b) == Compare(key, d, locale, a, b);
    }
    var filtered := Searched(ucs, query);
    SortKeepsOrder(filtered, cmp);
  }
}
