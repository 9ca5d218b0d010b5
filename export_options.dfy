/** The roadmap's CSV export: the items grouped by phase in the order of
    the phase list, one line each under a fixed seven-column header. The
    source encloses phase, title and description in quotes but does not
    double quotes inside them; `LineAsWritten` keeps that, `Line` doubles
    them as section 2 of RFC 4180 asks. */
module ExportOptions {
  import opened Seqs
  import opened Types
  import opened Csv
  import opened RoadmapState

  /** A column of the roadmap: its phase and the caption shown for it. */
  datatype PhaseInfo = PhaseInfo(id: Phase, caption: string)

  /** An item with the label of its phase. */
  datatype ExportItem = ExportItem(item: RoadmapItem, phaseLabel: string)

  const RoadmapHeader: string := "Phase,Title,Description,Score,Status,Estimated Time (Weeks),Estimated FTE"

  function Labelled(items: seq<RoadmapItem>, caption: string): (r: seq<ExportItem>)
    ensures |r| == |items|
    ensures forall i :: 0 <= i < |items| ==> r[i] == ExportItem(items[i], caption)
  {
    seq(|items|, i requires 0 <= i < |items| => ExportItem(items[i], caption))
  }

  /** `phases.flatMap(...)`: for each phase in turn, its items in order. */
  function ExportItems(items: seq<RoadmapItem>, phases: seq<PhaseInfo>): seq<ExportItem>
    decreases |phases|
  {
    if phases == [] then []
    else Labelled(Filter(items, PhaseIs(phases[0].id)), phases[0].caption) + ExportItems(items, phases[1..])
  }

  function PhaseIds(phases: seq<PhaseInfo>): (r: seq<Phase>)
    ensures |r| == |phases|
    ensures forall k :: 0 <= k < |phases| ==> r[k] == phases[k].id
  {
    seq(|phases|, k requires 0 <= k < |phases| => phases[k].id)
  }

  predicate DistinctPhases(phases: seq<PhaseInfo>)
  {
    forall k, l :: 0 <= k < l < |phases| ==> phases[k].id != phases[l].id
  }

  function Listed(phases: seq<PhaseInfo>): RoadmapItem -> bool
  {
    (it: RoadmapItem) => it.phase in PhaseIds(phases)
  }

  /** `${x}` of an optional number: "undefined" when absent. */
  function OptionalText(o: Option<real>, number: real -> string): string
  {
    if o.Some? then number(o.value) else "undefined"
  }

  function WeeksText(e: ExportItem, number: real -> string): string
  {
    OptionalText(if e.item.uc.estimatedTimeInWeeks.Some? then Some(e.item.uc.estimatedTimeInWeeks.value as real) else None, number)
  }

  function FteText(e: ExportItem, number: real -> string): string
  {
    OptionalText(e.item.uc.estimatedFTE, number)
  }

  /** `"${x}"`: the text between quotes, as it is. */
  function Enclosed(s: string): string
  {
    "\"" + s + "\""
  }

  /** The seven pieces of a line as the source writes them, each pasted
      as it is: phase, title and description between quotes that are not
      doubled inside. */
  function FieldsAsWritten(e: ExportItem, number: real -> string): (fs: seq<Field>)
    ensures |fs| == 7
  {
    [Bare(Enclosed(e.phaseLabel)), Bare(Enclosed(e.item.uc.title)), Bare(Enclosed(e.item.uc.description)),
     Bare(number(e.item.uc.score)), Bare(e.item.uc.status), Bare(WeeksText(e, number)), Bare(FteText(e, number))]
  }

  /** The line as the source writes it. */
  function LineAsWritten(e: ExportItem, number: real -> string): string
  {
    Record(FieldsAsWritten(e, number)) + "\n"
  }

  /** The seven fields of an item's line. */
  function Fields(e: ExportItem, number: real -> string): (fs: seq<Field>)
    ensures |fs| == 7
  {
    [Quoted(e.phaseLabel), Quoted(e.item.uc.title), Quoted(e.item.uc.description),
     Bare(number(e.item.uc.score)), Bare(e.item.uc.status), Bare(WeeksText(e, number)), Bare(FteText(e, number))]
  }

  /** The line with quotes doubled inside the enclosed fields. */
  function Line(e: ExportItem, number: real -> string): string
  {
    Record(Fields(e, number)) + "\n"
  }

  /** The file's lines as the source writes them, one per item in order. */
  function RoadmapLines(es: seq<ExportItem>, number: real -> string): string
    decreases |es|
  {
    if es == [] then "" else RoadmapLines(es[..|es| - 1], number) + LineAsWritten(es[|es| - 1], number)
  }

  function RoadmapCsv(items: seq<RoadmapItem>, phases: seq<PhaseInfo>, number: real -> string): string
  {
    RoadmapHeader + "\n" + RoadmapLines(ExportItems(items, phases), number)
  }

  /** One more item adds its line at the end. */
  lemma RoadmapLinesSnoc(header: string, es: seq<ExportItem>, i: nat, number: real -> string)
    requires i < |es|
    ensures header + RoadmapLines(es[..i + 1], number) == header + RoadmapLines(es[..i], number) + LineAsWritten(es[i], number)
  {
    var front, line := RoadmapLines(es[..i], number), LineAsWritten(es[i], number);
    assert es[..i + 1][..i] == es[..i] && es[..i + 1][i] == es[i];
    assert RoadmapLines(es[..i + 1], number) == front + line;
    assert header + (front + line) == header + front + line;
  }

  /** `exportRoadmap` up to the download, one line at a time. */
  method ExportRoadmap(items: seq<RoadmapItem>, phases: seq<PhaseInfo>, number: real -> string) returns (csv: string)
    ensures csv == RoadmapCsv(items, phases, number)
  {
    var es := ExportItems(items, phases);
    csv := WriteLines(RoadmapHeader, es, number);
  }

  method WriteLines(header: string, es: seq<ExportItem>, number: real -> string) returns (csv: string)
    ensures csv == header + "\n" + RoadmapLines(es, number)
  {
    csv := header + "\n";
    var i := 0;
    while i < |es|
      invariant 0 <= i <= |es|
      invariant csv == header + "\n" + RoadmapLines(es[..i], number)
    {
      RoadmapLinesSnoc(header + "\n", es, i, number);
      csv := csv + LineAsWritten(es[i], number);
      i := i + 1;
    }
    assert es[..i] == es;
  }

  /** Some phase of the list has this id and caption. */
  predicate ListedAs(phases: seq<PhaseInfo>, ph: Phase, caption: string)
  {
    exists k :: 0 <= k < |phases| && phases[k].id == ph && phases[k].caption == caption
  }

  lemma ListedAsCons(phases: seq<PhaseInfo>, ph: Phase, caption: string)
    requires phases != []
    ensures ListedAs(phases, ph, caption) <==>
              (phases[0].id == ph && phases[0].caption == caption) || ListedAs(phases[1..], ph, caption)
  {
    if ListedAs(phases, ph, caption) {
      var k :| 0 <= k < |phases| && phases[k].id == ph && phases[k].caption == caption;
      if k > 0 {
        assert phases[1..][k - 1] == phases[k];
      }
    }
    if ListedAs(phases[1..], ph, caption) {
      var k :| 0 <= k < |phases[1..]| && phases[1..][k].id == ph && phases[1..][k].caption == caption;
      assert phases[k + 1] == phases[1..][k];
    }
  }

  /** The block of one phase: its items, with its caption. */
  lemma BlockMembers(items: seq<RoadmapItem>, p: PhaseInfo)
    ensures forall e :: e in Labelled(Filter(items, PhaseIs(p.id)), p.caption) <==>
              e.item in items && e.item.phase == p.id && e.phaseLabel == p.caption
  {
    var kept := Filter(items, PhaseIs(p.id));
    var block := Labelled(kept, p.caption);
    forall e
      ensures e in block <==> e.item in items && e.item.phase == p.id && e.phaseLabel == p.caption
    {
      if e in block {
        var i :| 0 <= i < |block| && block[i] == e;
        assert kept[i] in kept;
      }
      if e.item in items && e.item.phase == p.id && e.phaseLabel == p.caption {
        assert e.item in kept;
        var i :| 0 <= i < |kept| && kept[i] == e.item;
        assert block[i] == e;
      }
    }
  }

  /** An item is exported, with a caption, exactly when it is in the list
      and some phase of the list has its phase and that caption. */
  lemma {:induction false} ExportItemsMembers(items: seq<RoadmapItem>, phases: seq<PhaseInfo>)
    ensures forall e :: e in ExportItems(items, phases) <==>
              e.item in items && ListedAs(phases, e.item.phase, e.phaseLabel)
    decreases |phases|
  {
    if phases != [] {
      ExportItemsMembers(items, phases[1..]);
      BlockMembers(items, phases[0]);
      forall e
        ensures e in ExportItems(items, phases) <==> e.item in items && ListedAs(phases, e.item.phase, e.phaseLabel)
      {
        ListedAsCons(phases, e.item.phase, e.phaseLabel);
      }
    }
  }

  /** Counting the items of the first phase and of the others apart. */
  lemma {:induction false} ListedCount(items: seq<RoadmapItem>, phases: seq<PhaseInfo>)
    requires phases != [] && phases[0].id !in PhaseIds(phases[1..])
    ensures |Filter(items, Listed(phases))| == |Filter(items, PhaseIs(phases[0].id))| + |Filter(items, Listed(phases[1..]))|
    decreases |items|
  {
    assert PhaseIds(phases) == [phases[0].id] + PhaseIds(phases[1..]);
    if items != [] {
      ListedCount(items[1..], phases);
    }
  }

  /** With distinct phases, the export has one line per item whose phase
      is listed, and items of other phases are left out. */
  lemma {:induction false} ExportCount(items: seq<RoadmapItem>, phases: seq<PhaseInfo>)
    requires DistinctPhases(phases)
    ensures |ExportItems(items, phases)| == |Filter(items, Listed(phases))|
    decreases |phases|
  {
    if phases == [] {
      FilterNone(items, Listed(phases));
    } else {
      var rest := phases[1..];
      assert DistinctPhases(rest) by {
        forall k, l | 0 <= k < l < |rest|
          ensures rest[k].id != rest[l].id
        {
          assert rest[k] == phases[k + 1] && rest[l] == phases[l + 1];
        }
      }
      ExportCount(items, rest);
      assert phases[0].id !in PhaseIds(rest) by {
        forall k | 0 <= k < |rest|
          ensures PhaseIds(rest)[k] != phases[0].id
        {
          assert rest[k] == phases[k + 1];
        }
      }
      ListedCount(items, phases);
    }
  }

  function ItemsOf(es: seq<ExportItem>): (r: seq<RoadmapItem>)
    ensures |r| == |es|
    ensures forall i :: 0 <= i < |es| ==> r[i] == es[i].item
  {
    seq(|es|, i requires 0 <= i < |es| => es[i].item)
  }

  function InPhase(ph: Phase): ExportItem -> bool
  {
    (e: ExportItem) => e.item.phase == ph
  }

  lemma ItemsOfConcat(a: seq<ExportItem>, b: seq<ExportItem>)
    ensures ItemsOf(a + b) == ItemsOf(a) + ItemsOf(b)
  {
  }

  lemma DistinctRest(phases: seq<PhaseInfo>)
    requires phases != [] && DistinctPhases(phases)
    ensures DistinctPhases(phases[1..])
    ensures forall c :: !ListedAs(phases[1..], phases[0].id, c)
  {
    var rest := phases[1..];
    forall k, l | 0 <= k < l < |rest|
      ensures rest[k].id != rest[l].id
    {
      assert rest[k] == phases[k + 1] && rest[l] == phases[l + 1];
    }
    forall k | 0 <= k < |rest|
      ensures rest[k].id != phases[0].id
    {
      assert rest[k] == phases[k + 1];
    }
  }

  /** With distinct phases, the lines of a listed phase hold its items in
      their order in the roadmap. */
  lemma {:induction false} PhaseOrderKept(items: seq<RoadmapItem>, phases: seq<PhaseInfo>, ph: Phase)
    requires DistinctPhases(phases)
    requires ph in PhaseIds(phases)
    ensures ItemsOf(Filter(ExportItems(items, phases), InPhase(ph))) == Filter(items, PhaseIs(ph))
    decreases |phases|
  {
    var rest := phases[1..];
    var kept := Filter(items, PhaseIs(phases[0].id));
    var block := Labelled(kept, phases[0].caption);
    var later := ExportItems(items, rest);
    FilterConcat(block, later, InPhase(ph));
    ItemsOfConcat(Filter(block, InPhase(ph)), Filter(later, InPhase(ph)));
    DistinctRest(phases);
    BlockMembers(items, phases[0]);
    if phases[0].id == ph {
      FilterKeepsAll(block, InPhase(ph));
      assert ItemsOf(block) == kept;
      ExportItemsMembers(items, rest);
      FilterNone(later, InPhase(ph));
    } else {
      FilterNone(block, InPhase(ph));
      var k :| 0 <= k < |phases| && PhaseIds(phases)[k] == ph;
      assert k > 0 && PhaseIds(rest)[k - 1] == ph;
      PhaseOrderKept(items, rest, ph);
    }
  }

  /** A line reads back as the item's seven fields when the unquoted ones
      hold no comma, quote or line break. */
  lemma LineReadsBack(e: ExportItem, number: real -> string)
    requires WellFormed(Fields(e, number))
    ensures ParseFields(Record(Fields(e, number))) == Some(Texts(Fields(e, number)))
  {
    ParseRecord(Fields(e, number));
  }

  lemma {:induction false} EscapeWithoutQuotes(s: string)
    requires '"' !in s
    ensures Escape(s) == s
    decreases |s|
  {
    if s != [] {
      assert s[0] in s;
      EscapeWithoutQuotes(s[1..]);
    }
  }

  /** Records whose fields are written alike are alike. */
  lemma {:induction false} RecordSameEncodings(fs: seq<Field>, gs: seq<Field>)
    requires |fs| == |gs|
    requires forall i :: 0 <= i < |fs| ==> Encode(fs[i]) == Encode(gs[i])
    ensures Record(fs) == Record(gs)
    decreases |fs|
  {
    if |fs| > 1 {
      RecordSameEncodings(fs[1..], gs[1..]);
    }
  }

  /** Without quotes in phase, title and description the line as written
      and the corrected line agree. */
  lemma AsWrittenAgreesWithoutQuotes(e: ExportItem, number: real -> string)
    requires '"' !in e.phaseLabel && '"' !in e.item.uc.title && '"' !in e.item.uc.description
    ensures LineAsWritten(e, number) == Line(e, number)
  {
    EscapeWithoutQuotes(e.phaseLabel);
    EscapeWithoutQuotes(e.item.uc.title);
    EscapeWithoutQuotes(e.item.uc.description);
    RecordSameEncodings(FieldsAsWritten(e, number), Fields(e, number));
  }

  lemma {:induction false} UnclosedField(t: string)
    requires '"' !in t
    ensures ReadQuoted(t) == None
    decreases |t|
  {
    if t != [] {
      assert t[0] in t;
      UnclosedField(t[1..]);
    }
  }

  /** A record of bare fields without quotes has no quote. */
  lemma {:induction false} BareRecordNoQuote(fs: seq<Field>)
    requires forall i :: 0 <= i < |fs| ==> fs[i].Bare? && '"' !in fs[i].text
    ensures '"' !in Record(fs)
    decreases |fs|
  {
    if |fs| > 1 {
      BareRecordNoQuote(fs[1..]);
    }
  }

  /** A lone quote as the title, then an empty description: the field
      opened before the title never closes. */
  lemma LoneQuoteUnclosed(tail: string)
    requires '"' !in tail
    ensures ParseFields("\"" + ("\"\"" + ("," + ("\"\"" + tail)))) == None
  {
    UnclosedField(tail);
    var a := "\"\"" + tail;
    assert a[2..] == tail;
    assert ReadQuoted(a) == None;
    var b := "," + a;
    assert b[1..] == a;
    assert ReadQuoted(b) == None;
    var c := "\"\"" + b;
    assert c[2..] == b;
    assert ReadQuoted(c) == None;
    var x := "\"" + c;
    assert x[1..] == c;
  }

  /** The record from the title on: a lone quote as the title, then an
      empty description, then fields without quotes. */
  lemma LoneQuoteRecord(fs: seq<Field>)
    requires |fs| == 6 && fs[0] == Bare(Enclosed("\"")) && fs[1] == Bare(Enclosed(""))
    requires forall i :: 2 <= i < 6 ==> fs[i].Bare? && '"' !in fs[i].text
    ensures ParseFields(Record(fs)) == None
  {
    BareRecordNoQuote(fs[2..]);
    var r2 := Record(fs[2..]);
    var r1 := Record(fs[1..]);
    assert fs[1..][1..] == fs[2..];
    assert r1 == "\"\"" + ("," + r2);
    assert Record(fs) == "\"" + ("\"\"" + ("," + r1));
    LoneQuoteUnclosed("," + r2);
  }

  /** A title that is a single double quote, with an empty description,
      makes the line as written unreadable: that quote and the opening
      quote of the description are taken for a doubled quote, and the
      field never closes. The corrected line reads back as written. */
  lemma QuoteInTitleBreaksLine(e: ExportItem, number: real -> string)
    requires e.item.uc.title == "\"" && e.item.uc.description == ""
    requires '"' !in e.phaseLabel
    requires WellFormed(Fields(e, number))
    ensures var line := LineAsWritten(e, number); ParseFields(line[..|line| - 1]) == None
    ensures ParseFields(Record(Fields(e, number))) == Some(Texts(Fields(e, number)))
  {
    var fs := FieldsAsWritten(e, number);
    var gs := Fields(e, number);
    forall i | 3 <= i < 7
      ensures fs[i].Bare? && '"' !in fs[i].text
    {
      assert gs[i] == fs[i];
    }
    QuoteTitleUnreadable(e.phaseLabel, fs);
    var line := LineAsWritten(e, number);
    assert line[..|line| - 1] == Record(fs);
    ParseRecord(gs);
  }

  /** The as-written record of a quoted phase label, a lone-quote title,
      an empty description and quote-free numbers cannot be read back. */
  lemma QuoteTitleUnreadable(phase: string, fs: seq<Field>)
    requires |fs| == 7 && fs[0] == Bare(Enclosed(phase)) && '"' !in phase
    requires fs[1] == Bare(Enclosed("\"")) && fs[2] == Bare(Enclosed(""))
    requires forall i :: 3 <= i < 7 ==> fs[i].Bare? && '"' !in fs[i].text
    ensures ParseFields(Record(fs)) == None
  {
    var tail := fs[1..];
    assert forall i :: 2 <= i < 6 ==> tail[i] == fs[i + 1];
    LoneQuoteRecord(tail);
    EscapeWithoutQuotes(phase);
    var r1 := Record(tail);
    assert Record(fs) == Encode(Quoted(phase)) + ("," + r1);
    FirstField(Quoted(phase), "," + r1);
    assert ("," + r1)[1..] == r1;
  }

}
