/** Suggestions of existing use cases similar to the one being written:
    shared teams, shared technologies and keywords of the new title and
    description found in an existing one's text. */
module SimilarSuggestions {
  import opened Seqs
  import opened Types
  import opened Text

  const With: string := "with"
  const That: string := "that"
  const This: string := "this"
  const From: string := "from"
  const Have: string := "have"
  const Based: string := "based"
  const Using: string := "using"

  /** Common words that are never keywords. */
  predicate StopWord(w: string)
  {
    w == With || w == That || w == This || w == From || w == Have || w == Based || w == Using
  }

  /** The points for each shared team, shared technology and keyword hit. */
  const TeamWeight: int := 10
  const TechWeight: int := 8
  const KeywordWeight: int := 5

  /** What has been typed so far. */
  datatype Draft = Draft(title: string, description: string, team: seq<string>, tech: seq<string>)

  predicate IsKeyword(w: string)
  {
    |w| > 3 && !StopWord(w)
  }

  /** The whitespace-separated words of the lower-cased title and then the
      description, without short words and stop words; repeats are kept. */
  function Keywords(title: string, description: string): seq<string>
  {
    var words := SplitWhitespace(Lower(title)) + SplitWhitespace(Lower(description));
    Filter(Filter(words, (w: string) => |w| > 3), (w: string) => !StopWord(w))
  }

  /** A keyword is a word of the lower-cased title or description, free of
      white space, longer than three letters and not a stop word; every
      such word is a keyword. */
  lemma KeywordsSpec(title: string, description: string)
    ensures forall w :: w in Keywords(title, description) <==>
              (w in SplitWhitespace(Lower(title)) || w in SplitWhitespace(Lower(description))) && IsKeyword(w)
    ensures forall w :: w in Keywords(title, description) ==> NoSpace(w)
  {
    SplitWhitespacePieces(Lower(title));
    SplitWhitespacePieces(Lower(description));
  }

  /** How many entries of `current` (repeats counted) occur in `theirs`. */
  function Overlap(current: seq<string>, theirs: seq<string>): nat
  {
    |Filter(current, (t: string) => t in theirs)|
  }

  /** How many keywords (repeats counted) occur in `text`. */
  function Hits(keywords: seq<string>, text: string): nat
  {
    |Filter(keywords, (k: string) => Includes(text, k))|
  }

  /** The lower-cased "title description" the keywords are looked for in. */
  function SearchText(uc: UseCase): string
  {
    Lower(uc.title + " " + uc.description)
  }

  function Similarity(uc: UseCase, d: Draft, keywords: seq<string>): int
  {
    TeamWeight * Overlap(d.team, uc.team) + TechWeight * Overlap(d.tech, uc.technologies)
    + KeywordWeight * Hits(keywords, SearchText(uc))
  }

  /** The similarity of a use case, adding 5 for every keyword hit in turn. */
  method SimilarityOf(uc: UseCase, d: Draft, keywords: seq<string>) returns (score: int)
    ensures score == Similarity(uc, d, keywords)
  {
    score := 0;
    score := score + Overlap(d.team, uc.team) * TeamWeight;
    score := score + Overlap(d.tech, uc.technologies) * TechWeight;
    var text := SearchText(uc);
    var base := score;
    var i := 0;
    while i < |keywords|
      invariant 0 <= i <= |keywords|
      invariant score == base + KeywordWeight * Hits(keywords[..i], text)
    {
      HitsSnoc(keywords, i, text);
      if Includes(text, keywords[i]) {
        score := score + KeywordWeight;
      }
      i := i + 1;
    }
    assert keywords[..i] == keywords;
  }

  /** One keyword more counts one hit more exactly when the text has it. */
  lemma HitsSnoc(keywords: seq<string>, i: nat, text: string)
    requires i < |keywords|
    ensures Hits(keywords[..i + 1], text) == Hits(keywords[..i], text) + if Includes(text, keywords[i]) then 1 else 0
  {
    assert keywords[..i + 1] == keywords[..i] + [keywords[i]];
    FilterConcat(keywords[..i], [keywords[i]], (k: string) => Includes(text, k));
  }

  /** A use case with its similarity. */
  datatype Scored = Scored(useCase: UseCase, score: int)

  function ScoredAll(ucs: seq<UseCase>, d: Draft, keywords: seq<string>): (r: seq<Scored>)
    ensures |r| == |ucs|
    ensures forall i :: 0 <= i < |r| ==> r[i] == Scored(ucs[i], Similarity(ucs[i], d, keywords))
  {
    seq(|ucs|, i requires 0 <= i < |ucs| => Scored(ucs[i], Similarity(ucs[i], d, keywords)))
  }

  lemma ScoredAllSnoc(ucs: seq<UseCase>, i: nat, d: Draft, keywords: seq<string>)
    requires i < |ucs|
    ensures ScoredAll(ucs[..i + 1], d, keywords) == ScoredAll(ucs[..i], d, keywords) + [Scored(ucs[i], Similarity(ucs[i], d, keywords))]
  {
  }

  /** Higher similarity first. */
  function ByScore(): Comparator<Scored>
  {
    (a: Scored, b: Scored) => (b.score - a.score) as real
  }

  function UseCasesOf(s: seq<Scored>): (r: seq<UseCase>)
    ensures |r| == |s|
    ensures forall i :: 0 <= i < |r| ==> r[i] == s[i].useCase
  {
    seq(|s|, i requires 0 <= i < |s| => s[i].useCase)
  }

  /** The scored use cases with some similarity, most similar first. */
  function Ranked(ucs: seq<UseCase>, d: Draft, keywords: seq<string>): seq<Scored>
  {
    Sort(Filter(ScoredAll(ucs, d, keywords), (s: Scored) => s.score > 0), ByScore())
  }

  /** Nothing typed yet: no suggestions. */
  predicate Empty(d: Draft)
  {
    d.title == "" && d.description == "" && d.team == [] && d.tech == []
  }

  /** `getSimilarUseCases`: the three most similar use cases. */
  function Similar(ucs: seq<UseCase>, d: Draft): seq<UseCase>
  {
    if Empty(d) then [] else UseCasesOf(Take(Ranked(ucs, d, Keywords(d.title, d.description)), 3))
  }

  /** `getSimilarUseCases`, scoring one use case at a time. */
  method GetSimilarUseCases(ucs: seq<UseCase>, d: Draft) returns (r: seq<UseCase>)
    ensures r == Similar(ucs, d)
  {
    if d.title == "" && d.description == "" && |d.team| == 0 && |d.tech| == 0 {
      return [];
    }
    var keywords := Keywords(d.title, d.description);
    var scored: seq<Scored> := [];
    var i := 0;
    while i < |ucs|
      invariant 0 <= i <= |ucs|
      invariant scored == ScoredAll(ucs[..i], d, keywords)
    {
      var score := SimilarityOf(ucs[i], d, keywords);
      ScoredAllSnoc(ucs, i, d, keywords);
      scored := scored + [Scored(ucs[i], score)];
      i := i + 1;
    }
    assert ucs[..i] == ucs;
    var ranked := Sort(Filter(scored, (s: Scored) => s.score > 0), ByScore());
    r := UseCasesOf(Take(ranked, 3));
  }

  /** Keeping the positive scores and sorting leaves exactly the positive
      entries, in non-increasing order of score. */
  lemma PositiveSorted(all: seq<Scored>)
    ensures var r := Sort(Filter(all, (s: Scored) => s.score > 0), ByScore());
            && (forall s :: s in r <==> s in all && s.score > 0)
            && (forall i, j :: 0 <= i < j < |r| ==> r[i].score >= r[j].score)
  {
    var kept := Filter(all, (s: Scored) => s.score > 0);
    var r := Sort(kept, ByScore());
    PermutationMembers(r, kept);
    SortSorted(kept, ByScore(), kept);
    forall i, j | 0 <= i < j < |r|
      ensures r[i].score >= r[j].score
    {
      assert ByScore()(r[i], r[j]) <= 0.0;
    }
  }

  /** Every use case of the list is scored with its similarity. */
  lemma ScoredAllMembers(ucs: seq<UseCase>, d: Draft, keywords: seq<string>)
    ensures forall s :: s in ScoredAll(ucs, d, keywords) <==> s.useCase in ucs && s.score == Similarity(s.useCase, d, keywords)
  {
    var all := ScoredAll(ucs, d, keywords);
    forall s
      ensures s in all <==> s.useCase in ucs && s.score == Similarity(s.useCase, d, keywords)
    {
      if s.useCase in ucs && s.score == Similarity(s.useCase, d, keywords) {
        var i :| 0 <= i < |ucs| && ucs[i] == s.useCase;
        assert all[i] == s;
      }
    }
  }

  /** The ranking holds the use cases with positive similarity, each with
      its similarity, in non-increasing order of it. */
  lemma RankedSpec(ucs: seq<UseCase>, d: Draft, keywords: seq<string>)
    ensures var r := Ranked(ucs, d, keywords);
            && (forall s :: s in r <==> s.useCase in ucs && s.score > 0 && s.score == Similarity(s.useCase, d, keywords))
            && (forall i, j :: 0 <= i < j < |r| ==> r[i].score >= r[j].score)
  {
    ScoredAllMembers(ucs, d, keywords);
    PositiveSorted(ScoredAll(ucs, d, keywords));
  }

  /** The use cases of the first three entries of a ranking: the first
      entries in order, and all of them when fewer than three come back. */
  lemma TopOf(ranked: seq<Scored>)
    ensures var r := UseCasesOf(Take(ranked, 3));
            && |r| <= 3 && |r| <= |ranked|
            && (forall i :: 0 <= i < |r| ==> r[i] == ranked[i].useCase)
            && (|r| < 3 ==> forall s :: s in ranked ==> s.useCase in r)
  {
    var r := UseCasesOf(Take(ranked, 3));
    if |r| < 3 {
      forall s | s in ranked
        ensures s.useCase in r
      {
        var k :| 0 <= k < |ranked| && ranked[k] == s;
        assert r[k] == s.useCase;
      }
    }
  }

  /** The first three of the ranking, as use cases: each from the list,
      each with positive similarity, most similar first; and when fewer
      than three come back, every use case with positive similarity is
      among them. */
  lemma TopThreeSpec(ucs: seq<UseCase>, d: Draft, keywords: seq<string>)
    ensures var r := UseCasesOf(Take(Ranked(ucs, d, keywords), 3));
            && |r| <= 3
            && (forall i :: 0 <= i < |r| ==> r[i] in ucs && Similarity(r[i], d, keywords) > 0)
            && (forall i, j :: 0 <= i < j < |r| ==> Similarity(r[i], d, keywords) >= Similarity(r[j], d, keywords))
            && (|r| < 3 ==> forall uc :: uc in ucs && Similarity(uc, d, keywords) > 0 ==> uc in r)
  {
    RankedSpec(ucs, d, keywords);
    TopOfRanking(Ranked(ucs, d, keywords), ucs, d, keywords);
  }

  /** `TopThreeSpec` for any ranking that holds exactly the similar use
      cases with their similarity, most similar first. */
  lemma TopOfRanking(ranked: seq<Scored>, ucs: seq<UseCase>, d: Draft, keywords: seq<string>)
    requires forall s :: s in ranked <==> s.useCase in ucs && s.score > 0 && s.score == Similarity(s.useCase, d, keywords)
    requires forall i, j :: 0 <= i < j < |ranked| ==> ranked[i].score >= ranked[j].score
    ensures var r := UseCasesOf(Take(ranked, 3));
            && |r| <= 3
            && (forall i :: 0 <= i < |r| ==> r[i] in ucs && Similarity(r[i], d, keywords) > 0)
            && (forall i, j :: 0 <= i < j < |r| ==> Similarity(r[i], d, keywords) >= Similarity(r[j], d, keywords))
            && (|r| < 3 ==> forall uc :: uc in ucs && Similarity(uc, d, keywords) > 0 ==> uc in r)
  {
    TopOf(ranked);
    var r := UseCasesOf(Take(ranked, 3));
    forall i | 0 <= i < |r|
      ensures r[i] in ucs && Similarity(r[i], d, keywords) > 0
    {
      assert ranked[i] in ranked;
    }
    forall i, j | 0 <= i < j < |r|
      ensures Similarity(r[i], d, keywords) >= Similarity(r[j], d, keywords)
    {
      var a, b := ranked[i], ranked[j];
      assert a in ranked && b in ranked;
      assert a.score == Similarity(r[i], d, keywords) && b.score == Similarity(r[j], d, keywords);
    }
    if |r| < 3 {
      forall uc | uc in ucs && Similarity(uc, d, keywords) > 0
        ensures uc in r
      {
        assert Scored(uc, Similarity(uc, d, keywords)) in ranked;
      }
    }
  }

  /** With nothing typed there are no suggestions; otherwise the three
      most similar use cases, as `TopThreeSpec` describes. */
  lemma SimilarSpec(ucs: seq<UseCase>, d: Draft)
    ensures Empty(d) ==> Similar(ucs, d) == []
    ensures !Empty(d) ==> Similar(ucs, d) == UseCasesOf(Take(Ranked(ucs, d, Keywords(d.title, d.description)), 3))
    ensures var r := Similar(ucs, d);
            var keywords := Keywords(d.title, d.description);
            && |r| <= 3
            && (forall i :: 0 <= i < |r| ==> r[i] in ucs && Similarity(r[i], d, keywords) > 0)
            && (forall i, j :: 0 <= i < j < |r| ==> Similarity(r[i], d, keywords) >= Similarity(r[j], d, keywords))
  {
    if !Empty(d) {
      var keywords := Keywords(d.title, d.description);
      assert Similar(ucs, d) == UseCasesOf(Take(Ranked(ucs, d, keywords), 3));
      TopThreeSpec(ucs, d, keywords);
    }
  }
}
