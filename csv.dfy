/** Comma-separated records as section 2 of RFC 4180 describes them: a
    field is either bare or enclosed in double quotes, and a double quote
    inside an enclosed field is written twice. Reading a record back is
    the reference the exporters are checked against. */
module Csv {
  import opened Seqs

  /** Every double quote doubled. */
  function Escape(s: string): (r: string)
    ensures |r| >= |s|
    decreases |s|
  {
    if s == [] then []
    else (if s[0] == '"' then "\"\"" else [s[0]]) + Escape(s[1..])
  }

  /** An enclosed field. */
  function Quote(s: string): string
  {
    "\"" + Escape(s) + "\""
  }

  /** Reads the inside of an enclosed field, the opening quote already
      consumed: a doubled quote stands for one, a lone quote closes the
      field. Gives the field and what follows the closing quote; nothing
      when the field is not closed. */
  function ReadQuoted(t: string): (r: Option<(string, string)>)
    ensures r.Some? ==> |r.value.1| < |t|
    decreases |t|
  {
    if t == [] then None
    else if t[0] == '"' then
      if |t| > 1 && t[1] == '"' then
        match ReadQuoted(t[2..])
        case None => None
        case Some(p) => Some(("\"" + p.0, p.1))
      else Some(([], t[1..]))
    else
      match ReadQuoted(t[1..])
      case None => None
      case Some(p) => Some(([t[0]] + p.0, p.1))
  }

  /** Reads a bare field: everything up to the next comma. */
  function ReadBare(t: string): (r: (string, string))
    ensures r.0 + r.1 == t
    ensures ',' !in r.0
    ensures r.1 == [] || r.1[0] == ','
    decreases |t|
  {
    if t == [] || t[0] == ',' then ([], t)
    else
      var p := ReadBare(t[1..]);
      ([t[0]] + p.0, p.1)
  }

  /** The fields of one record, or nothing when it is malformed: an
      enclosed field not closed, or not followed by a comma or the end. */
  function ParseFields(line: string): Option<seq<string>>
    decreases |line|
  {
    if line != [] && line[0] == '"' then
      match ReadQuoted(line[1..])
      case None => None
      case Some(p) =>
        if p.1 == [] then Some([p.0])
        else if p.1[0] != ',' then None
        else
          match ParseFields(p.1[1..])
          case None => None
          case Some(rest) => Some([p.0] + rest)
    else
      var p := ReadBare(line);
      if p.1 == [] then Some([p.0])
      else
        match ParseFields(p.1[1..])
        case None => None
        case Some(rest) => Some([p.0] + rest)
  }

  /** A field as written: enclosed in quotes, or bare. */
  datatype Field = Quoted(text: string) | Bare(text: string)

  /** A bare field may hold no comma, quote or line break. */
  predicate BareAllowed(s: string)
  {
    ',' !in s && '"' !in s && '\n' !in s && '\r' !in s
  }

  predicate WellFormed(fs: seq<Field>)
  {
    forall i :: 0 <= i < |fs| && fs[i].Bare? ==> BareAllowed(fs[i].text)
  }

  function Encode(f: Field): string
  {
    match f
    case Quoted(s) => Quote(s)
    case Bare(s) => s
  }

  /** The fields joined by commas. */
  function Record(fs: seq<Field>): string
    decreases |fs|
  {
    if fs == [] then []
    else if |fs| == 1 then Encode(fs[0])
    else Encode(fs[0]) + "," + Record(fs[1..])
  }

  function Texts(fs: seq<Field>): (r: seq<string>)
    ensures |r| == |fs|
    ensures forall i :: 0 <= i < |fs| ==> r[i] == fs[i].text
  {
    seq(|fs|, i requires 0 <= i < |fs| => fs[i].text)
  }

  /** Strips the enclosing quotes of a single field and undoubles the
      quotes inside. */
  function Unquote(c: string): Option<string>
  {
    if c != [] && c[0] == '"' then
      match ReadQuoted(c[1..])
      case Some(p) => if p.1 == [] then Some(p.0) else None
      case None => None
    else None
  }

  /** Reading an escaped field followed by its closing quote gives the
      field back and stops at what follows, unless that is a quote. */
  lemma {:induction false} ReadQuotedEscape(s: string, rest: string)
    requires rest == [] || rest[0] != '"'
    ensures ReadQuoted(Escape(s) + "\"" + rest) == Some((s, rest))
    decreases |s|
  {
    if s == [] {
      assert Escape(s) + "\"" + rest == "\"" + rest;
    } else if s[0] == '"' {
      ReadQuotedEscape(s[1..], rest);
      EscapedQuoteStep(s, rest);
    } else {
      ReadQuotedEscape(s[1..], rest);
      EscapedPlainStep(s, rest);
    }
  }

  lemma EscapedQuoteStep(s: string, rest: string)
    requires s != [] && s[0] == '"'
    requires ReadQuoted(Escape(s[1..]) + "\"" + rest) == Some((s[1..], rest))
    ensures ReadQuoted(Escape(s) + "\"" + rest) == Some((s, rest))
  {
    var tail := Escape(s[1..]) + "\"" + rest;
    assert Escape(s) + "\"" + rest == "\"\"" + tail;
    ReadQuotedDoubled(tail, (s[1..], rest));
    assert "\"" + s[1..] == s;
  }

  lemma EscapedPlainStep(s: string, rest: string)
    requires s != [] && s[0] != '"'
    requires ReadQuoted(Escape(s[1..]) + "\"" + rest) == Some((s[1..], rest))
    ensures ReadQuoted(Escape(s) + "\"" + rest) == Some((s, rest))
  {
    var tail := Escape(s[1..]) + "\"" + rest;
    assert Escape(s) + "\"" + rest == [s[0]] + tail;
    ReadQuotedPlain(s[0], tail, (s[1..], rest));
    assert [s[0]] + s[1..] == s;
  }

  lemma ReadQuotedDoubled(tail: string, v: (string, string))
    requires ReadQuoted(tail) == Some(v)
    ensures ReadQuoted("\"\"" + tail) == Some(("\"" + v.0, v.1))
  {
    assert ("\"\"" + tail)[2..] == tail;
  }

  lemma ReadQuotedPlain(c: char, tail: string, v: (string, string))
    requires c != '"' && ReadQuoted(tail) == Some(v)
    ensures ReadQuoted([c] + tail) == Some(([c] + v.0, v.1))
  {
    assert ([c] + tail)[1..] == tail;
  }

  /** Quoting and unquoting are inverse. */
  lemma UnquoteQuote(s: string)
    ensures Unquote(Quote(s)) == Some(s)
  {
    ReadQuotedEscape(s, []);
    assert Quote(s)[1..] == Escape(s) + "\"" + [];
  }

  /** A bare field without commas is read up to the comma after it. */
  lemma {:induction false} ReadBareOf(s: string, rest: string)
    requires ',' !in s
    requires rest == [] || rest[0] == ','
    ensures ReadBare(s + rest) == (s, rest)
    decreases |s|
  {
    if s != [] {
      assert (s + rest)[1..] == s[1..] + rest;
      ReadBareOf(s[1..], rest);
      assert [s[0]] + s[1..] == s;
    } else {
      assert s + rest == rest;
    }
  }

  /** Reading the first field of a record whose later fields follow a
      comma gives that field and the rest of the record. */
  lemma FirstField(f: Field, tail: string)
    requires f.Bare? ==> BareAllowed(f.text)
    requires tail == [] || tail[0] == ','
    ensures ParseFields(Encode(f) + tail) ==
              if tail == [] then Some([f.text])
              else match ParseFields(tail[1..])
                   case None => None
                   case Some(rest) => Some([f.text] + rest)
  {
    match f
    case Quoted(s) => FirstQuoted(s, tail);
    case Bare(s) => FirstBare(s, tail);
  }

  lemma FirstQuoted(s: string, tail: string)
    requires tail == [] || tail[0] == ','
    ensures ReadQuoted(Quote(s)[1..] + tail) == Some((s, tail))
    ensures ParseFields(Quote(s) + tail) ==
              if tail == [] then Some([s])
              else match ParseFields(tail[1..])
                   case None => None
                   case Some(rest) => Some([s] + rest)
  {
    assert (Quote(s) + tail)[1..] == Escape(s) + "\"" + tail == Quote(s)[1..] + tail;
    ReadQuotedEscape(s, tail);
  }

  lemma FirstBare(s: string, tail: string)
    requires BareAllowed(s)
    requires tail == [] || tail[0] == ','
    ensures ParseFields(s + tail) ==
              if tail == [] then Some([s])
              else match ParseFields(tail[1..])
                   case None => None
                   case Some(rest) => Some([s] + rest)
  {
    ReadBareOf(s, tail);
    if s != [] {
      assert (s + tail)[0] == s[0];
      assert s[0] in s;
    }
  }

  /** Reading a well-formed record gives back its fields' texts. */
  lemma {:induction false} ParseRecord(fs: seq<Field>)
    requires fs != [] && WellFormed(fs)
    ensures ParseFields(Record(fs)) == Some(Texts(fs))
    decreases |fs|
  {
    if |fs| == 1 {
      FirstField(fs[0], []);
      assert Encode(fs[0]) + [] == Encode(fs[0]) == Record(fs);
      assert Texts(fs) == [fs[0].text];
    } else {
      var tail := "," + Record(fs[1..]);
      assert Record(fs) == Encode(fs[0]) + tail;
      assert tail[1..] == Record(fs[1..]);
      ParseRecord(fs[1..]);
      FirstField(fs[0], tail);
      assert Texts(fs) == [fs[0].text] + Texts(fs[1..]);
    }
  }

  /** Escaping adds and removes no character other than quotes. */
  lemma {:induction false} EscapeChars(s: string, c: char)
    requires c != '"'
    ensures c in Escape(s) <==> c in s
    decreases |s|
  {
    if s != [] {
      EscapeChars(s[1..], c);
      assert s == [s[0]] + s[1..];
    }
  }

  /** A record has a line break only where one of its fields has. */
  lemma {:induction false} RecordNoBreak(fs: seq<Field>)
    requires forall i :: 0 <= i < |fs| ==> '\n' !in fs[i].text
    ensures '\n' !in Record(fs)
    decreases |fs|
  {
    if fs != [] {
      EscapeChars(fs[0].text, '\n');
      RecordNoBreak(fs[1..]);
    }
  }

  /** The number of line feeds in a text. */
  function Breaks(s: string): nat
  {
    |Filter(s, (c: char) => c == '\n')|
  }

  lemma {:induction false} BreaksConcat(a: string, b: string)
    ensures Breaks(a + b) == Breaks(a) + Breaks(b)
  {
    FilterConcat(a, b, (c: char) => c == '\n');
  }

  lemma {:induction false} NoBreaks(s: string)
    requires '\n' !in s
    ensures Breaks(s) == 0
    decreases |s|
  {
    if s != [] {
      assert s[0] in s;
      NoBreaks(s[1..]);
    }
  }
}
