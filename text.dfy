/** The JavaScript string operations the application relies on: `\s`,
    `trim`, `toLowerCase`, `includes`, `split(/\s+/)`, the first match of
    `/(\d+)/` and `parseInt`. A string is a sequence of Dafny characters
    (Unicode scalar values), not of UTF-16 code units. */
module Text {
  import opened Seqs

  /** The characters matched by the regular-expression class `\s` (and
      removed by `trim`): the ASCII blanks, the line terminators, the
      no-break space, the byte-order mark and the Unicode space separators. */
  predicate IsSpace(c: char)
  {
    || c == ' ' || c == '\t' || c == '\n' || c == '\r' || c == '\U{000B}' || c == '\U{000C}'
    || c == '\U{00A0}' || c == '\U{FEFF}' || c == '\U{1680}' || ('\U{2000}' <= c <= '\U{200A}')
    || c == '\U{2028}' || c == '\U{2029}' || c == '\U{202F}' || c == '\U{205F}' || c == '\U{3000}'
  }

  predicate NotSpace(c: char)
  {
    !IsSpace(c)
  }

  /** A string that `trim()` empties. */
  predicate IsBlank(s: string)
  {
    forall k :: 0 <= k < |s| ==> IsSpace(s[k])
  }

  /** `s.trimStart()`. */
  function TrimStart(s: string): (r: string)
    ensures |r| <= |s| && r == s[|s| - |r|..]
    ensures forall k :: 0 <= k < |s| - |r| ==> IsSpace(s[k])
    ensures r == [] || !IsSpace(r[0])
    decreases |s|
  {
    if s != [] && IsSpace(s[0]) then TrimStart(s[1..]) else s
  }

  /** `s.trimEnd()`. */
  function TrimEnd(s: string): (r: string)
    ensures |r| <= |s| && r == s[..|r|]
    ensures forall k :: |r| <= k < |s| ==> IsSpace(s[k])
    ensures r == [] || !IsSpace(r[|r| - 1])
    decreases |s|
  {
    if s != [] && IsSpace(s[|s| - 1]) then TrimEnd(s[..|s| - 1]) else s
  }

  /** `s.trim()`: the string without its leading and trailing white space. */
  function Trim(s: string): (r: string)
    ensures |r| <= |s|
    ensures r == [] || (!IsSpace(r[0]) && !IsSpace(r[|r| - 1]))
  {
    TrimEnd(TrimStart(s))
  }

  /** `s.trim() === ''` holds exactly for the blank strings. */
  lemma TrimEmptyIffBlank(s: string)
    ensures Trim(s) == [] <==> IsBlank(s)
  {
    if IsBlank(s) {
      TrimStartBlank(s);
    } else {
      NonBlankKept(s);
    }
  }

  lemma NonBlankKept(s: string)
    requires !IsBlank(s)
    ensures Trim(s) != []
  {
    var k :| 0 <= k < |s| && !IsSpace(s[k]);
    TrimStartKeeps(s, k);
    TrimEndKeepsFirst(TrimStart(s));
  }

  /** Trimming the start stops at the first non-space character. */
  lemma TrimStartKeeps(s: string, k: nat)
    requires k < |s| && !IsSpace(s[k])
    ensures TrimStart(s) != []
  {
    var t := TrimStart(s);
    assert !(k < |s| - |t|);
  }

  lemma {:induction false} TrimStartBlank(s: string)
    requires IsBlank(s)
    ensures TrimStart(s) == []
    decreases |s|
  {
    if s != [] {
      TrimStartBlank(s[1..]);
    }
  }

  /** Trimming the end of a string that starts with a non-space character
      keeps that character. */
  lemma TrimEndKeepsFirst(t: string)
    requires t != [] && !IsSpace(t[0])
    ensures TrimEnd(t) != []
  {
  }

  /** Trimming a trimmed string changes nothing. */
  lemma TrimIdempotent(s: string)
    ensures Trim(Trim(s)) == Trim(s)
  {
    var r := Trim(s);
    if r != [] {
      assert TrimStart(r) == r;
      assert TrimEnd(r) == r;
    }
  }

  /** The ASCII case mapping of `toLowerCase`. */
  function LowerChar(c: char): (r: char)
    ensures 'A' <= c <= 'Z' ==> r as int == c as int + 32
    ensures !('A' <= c <= 'Z') ==> r == c
  {
    if 'A' <= c <= 'Z' then (c as int + 32) as char else c
  }

  /** `s.toLowerCase()`, on the ASCII letters. */
  function Lower(s: string): (r: string)
    ensures |r| == |s|
    ensures forall k :: 0 <= k < |s| ==> r[k] == LowerChar(s[k])
  {
    seq(|s|, k requires 0 <= k < |s| => LowerChar(s[k]))
  }

  /** A lower-cased string has no upper-case ASCII letter, so lowering again changes nothing. */
  lemma LowerIdempotent(s: string)
    ensures forall k :: 0 <= k < |s| ==> !('A' <= Lower(s)[k] <= 'Z')
    ensures Lower(Lower(s)) == Lower(s)
  {
  }

  /** `sub` occurs in `s` starting at position `i`. */
  predicate OccursAt(s: string, sub: string, i: int)
  {
    0 <= i <= |s| - |sub| && s[i..i + |sub|] == sub
  }

  /** `s.includes(sub)`: `sub` occurs in `s` starting at some position. */
  predicate Includes(s: string, sub: string)
    decreases |s|
  {
    |sub| <= |s| && (sub == s[..|sub|] || (s != [] && Includes(s[1..], sub)))
  }

  lemma {:induction false} IncludesAt(s: string, sub: string)
    ensures Includes(s, sub) <==> exists i :: OccursAt(s, sub, i)
    decreases |s|
  {
    if |sub| <= |s| && sub == s[..|sub|] {
      assert OccursAt(s, sub, 0);
    }
    if s != [] {
      IncludesAt(s[1..], sub);
      if Includes(s[1..], sub) {
        var i :| OccursAt(s[1..], sub, i);
        assert s[i + 1..i + 1 + |sub|] == s[1..][i..i + |sub|];
        assert OccursAt(s, sub, i + 1);
      }
      if exists i :: OccursAt(s, sub, i) {
        var i :| OccursAt(s, sub, i);
        if i > 0 {
          assert s[1..][i - 1..i - 1 + |sub|] == s[i..i + |sub|];
          assert OccursAt(s[1..], sub, i - 1);
        } else {
          assert s[..|sub|] == s[0..|sub|];
        }
      }
    }
  }

  /** `xs.some(x => x.toLowerCase().includes(q))`. */
  predicate SomeIncludes(xs: seq<string>, q: string)
  {
    exists i :: 0 <= i < |xs| && Includes(Lower(xs[i]), q)
  }

  /** Every string includes the empty string. */
  lemma IncludesEmpty(s: string)
    ensures Includes(s, [])
  {
    assert s[..0] == [];
  }

  /** A string includes every piece of it. */
  lemma IncludesSlice(s: string, i: nat, j: nat)
    requires i <= j <= |s|
    ensures Includes(s, s[i..j])
  {
    IncludesAt(s, s[i..j]);
    assert OccursAt(s, s[i..j], i);
  }

  /** The pieces of `s.split(/\s+/)`, continuing a piece that already holds `cur`. */
  function SplitFrom(s: string, cur: string): (r: seq<string>)
    ensures r != []
    decreases |s|
  {
    if s == [] then [cur]
    else if IsSpace(s[0]) then [cur] + SplitFrom(TrimStart(s[1..]), [])
    else SplitFrom(s[1..], cur + [s[0]])
  }

  /** `s.split(/\s+/)`: the pieces between maximal runs of white space; a
      leading or trailing run yields an empty first or last piece. */
  function SplitWhitespace(s: string): (r: seq<string>)
    ensures r != []
  {
    SplitFrom(s, [])
  }

  function Concat(ss: seq<string>): string
  {
    if ss == [] then [] else ss[0] + Concat(ss[1..])
  }

  lemma {:induction false} FilterSpacesPrefix(s: string)
    ensures Filter(s, NotSpace) == Filter(TrimStart(s), NotSpace)
    decreases |s|
  {
    if s != [] && IsSpace(s[0]) {
      FilterSpacesPrefix(s[1..]);
    }
  }

  /** A string without white space. */
  predicate NoSpace(p: string)
  {
    forall k :: 0 <= k < |p| ==> !IsSpace(p[k])
  }

  lemma {:induction false} SplitFromNoSpace(s: string, cur: string)
    requires NoSpace(cur)
    ensures forall p :: p in SplitFrom(s, cur) ==> NoSpace(p)
    decreases |s|
  {
    if s != [] && IsSpace(s[0]) {
      SplitFromNoSpace(TrimStart(s[1..]), []);
    } else if s != [] {
      SplitFromNoSpace(s[1..], cur + [s[0]]);
    }
  }

  lemma {:induction false} SplitFromConcat(s: string, cur: string)
    ensures Concat(SplitFrom(s, cur)) == cur + Filter(s, NotSpace)
    decreases |s|
  {
    if s == [] {
      assert Concat([cur]) == cur + [];
    } else if IsSpace(s[0]) {
      SplitFromConcat(TrimStart(s[1..]), []);
      SpaceStep(s, cur);
    } else {
      SplitFromConcat(s[1..], cur + [s[0]]);
      WordStep(s, cur);
    }
  }

  lemma SpaceStep(s: string, cur: string)
    requires s != [] && IsSpace(s[0])
    requires Concat(SplitFrom(TrimStart(s[1..]), [])) == [] + Filter(TrimStart(s[1..]), NotSpace)
    ensures Concat(SplitFrom(s, cur)) == cur + Filter(s, NotSpace)
  {
    var later := SplitFrom(TrimStart(s[1..]), []);
    FilterSpacesPrefix(s[1..]);
    assert Filter(s, NotSpace) == Filter(s[1..], NotSpace);
    assert ([cur] + later)[1..] == later;
  }

  lemma WordStep(s: string, cur: string)
    requires s != [] && !IsSpace(s[0])
    requires Concat(SplitFrom(s[1..], cur + [s[0]])) == (cur + [s[0]]) + Filter(s[1..], NotSpace)
    ensures Concat(SplitFrom(s, cur)) == cur + Filter(s, NotSpace)
  {
    assert SplitFrom(s, cur) == SplitFrom(s[1..], cur + [s[0]]);
    assert Filter(s, NotSpace) == [s[0]] + Filter(s[1..], NotSpace);
    JoinAfter(cur, s[0], Filter(s[1..], NotSpace));
  }

  lemma JoinAfter(cur: string, c: char, tail: string)
    ensures (cur + [c]) + tail == cur + ([c] + tail)
  {
  }

  /** No piece of `split(/\s+/)` holds white space, and together the pieces
      hold exactly the non-space characters of the input, in order. */
  lemma SplitWhitespacePieces(s: string)
    ensures forall p :: p in SplitWhitespace(s) ==> NoSpace(p)
    ensures Concat(SplitWhitespace(s)) == Filter(s, NotSpace)
  {
    SplitFromNoSpace(s, []);
    SplitFromConcat(s, []);
    assert [] + Filter(s, NotSpace) == Filter(s, NotSpace);
  }

  /** The regular-expression class `\d`: the ASCII digits. */
  predicate IsDigit(c: char)
  {
    '0' <= c <= '9'
  }

  /** The longest prefix of `s` made of digits. */
  function LeadingDigits(s: string): (r: string)
    ensures r <= s
    ensures forall k :: 0 <= k < |r| ==> IsDigit(r[k])
    ensures |r| < |s| ==> !IsDigit(s[|r|])
    decreases |s|
  {
    if s != [] && IsDigit(s[0]) then [s[0]] + LeadingDigits(s[1..]) else []
  }

  /** The value of a string of decimal digits. */
  function DigitsValue(d: string): nat
    requires forall k :: 0 <= k < |d| ==> IsDigit(d[k])
  {
    if d == [] then 0
    else
      assert IsDigit(d[|d| - 1]);
      DigitsValue(d[..|d| - 1]) * 10 + (d[|d| - 1] as int - '0' as int)
  }

  /** The decimal representation of `n`, without leading zeros. */
  function ShowNat(n: nat): (r: string)
    ensures r != []
    ensures forall k :: 0 <= k < |r| ==> IsDigit(r[k])
  {
    if n < 10 then [('0' as int + n) as char]
    else ShowNat(n / 10) + [('0' as int + n % 10) as char]
  }

  lemma {:induction false} ShowNatValue(n: nat)
    ensures DigitsValue(ShowNat(n)) == n
  {
    var r := ShowNat(n);
    if n >= 10 {
      ShowNatValue(n / 10);
      assert r[..|r| - 1] == ShowNat(n / 10);
    }
  }

  /** `s.match(/(\d+)/)` followed by `parseInt` of the group: the value of
      the first run of digits, or nothing when `s` has no digit. */
  function FirstNumber(s: string): (r: Option<nat>)
    ensures r.None? <==> forall k :: 0 <= k < |s| ==> !IsDigit(s[k])
    decreases |s|
  {
    if s == [] then None
    else if IsDigit(s[0]) then Some(DigitsValue(LeadingDigits(s)))
    else
      var r := FirstNumber(s[1..]);
      assert forall k :: 1 <= k < |s| ==> s[k] == s[1..][k - 1];
      r
  }

  /** The number found is the value of the run starting at the first digit. */
  lemma {:induction false} FirstNumberIsFirstRun(s: string, i: nat)
    requires i < |s| && IsDigit(s[i])
    requires forall k :: 0 <= k < i ==> !IsDigit(s[k])
    ensures FirstNumber(s) == Some(DigitsValue(LeadingDigits(s[i..])))
    decreases i
  {
    if i > 0 {
      assert s[1..][i - 1..] == s[i..];
      FirstNumberIsFirstRun(s[1..], i - 1);
    }
  }

  /** A number written out in front of text that does not start with a digit is found again. */
  lemma FirstNumberOfShown(n: nat, rest: string)
    requires rest == [] || !IsDigit(rest[0])
    ensures FirstNumber(ShowNat(n) + rest) == Some(n)
  {
    var s := ShowNat(n) + rest;
    LeadingDigitsOfShown(ShowNat(n), rest);
    FirstNumberIsFirstRun(s, 0);
    assert s[0..] == s;
    ShowNatValue(n);
  }

  lemma {:induction false} LeadingDigitsOfShown(d: string, rest: string)
    requires forall k :: 0 <= k < |d| ==> IsDigit(d[k])
    requires rest == [] || !IsDigit(rest[0])
    ensures LeadingDigits(d + rest) == d
    decreases |d|
  {
    if d != [] {
      assert (d + rest)[1..] == d[1..] + rest;
      LeadingDigitsOfShown(d[1..], rest);
    } else {
      assert d + rest == rest;
    }
  }

  /** The value of a hexadecimal digit, if `c` is one. */
  function HexDigit(c: char): Option<nat>
  {
    if '0' <= c <= '9' then Some(c as int - '0' as int)
    else if 'a' <= c <= 'f' then Some(c as int - 'a' as int + 10)
    else if 'A' <= c <= 'F' then Some(c as int - 'A' as int + 10)
    else None
  }

  /** The value of the longest prefix of `s` made of digits in base
      `radix` (10 or 16), read from the left onto `acc`, and how many
      digits it had. */
  function ReadDigits(s: string, radix: nat, acc: nat, count: nat): (r: (nat, nat))
    requires radix == 10 || radix == 16
    ensures r.1 >= count
    decreases |s|
  {
    if s == [] then (acc, count)
    else if radix == 10 && IsDigit(s[0]) then ReadDigits(s[1..], radix, acc * 10 + (s[0] as int - '0' as int), count + 1)
    else if radix == 16 && HexDigit(s[0]).Some? then ReadDigits(s[1..], radix, acc * 16 + HexDigit(s[0]).value, count + 1)
    else (acc, count)
  }

  /** The digits at the front of `u` in base 10, or in base 16 after a
      `0x`/`0X` prefix; nothing when there is no digit. */
  function ParseMagnitude(u: string): Option<nat>
  {
    var read := if |u| >= 2 && u[0] == '0' && (u[1] == 'x' || u[1] == 'X')
      then ReadDigits(u[2..], 16, 0, 0)
      else ReadDigits(u, 10, 0, 0);
    if read.1 == 0 then None else Some(read.0)
  }

  /** `parseInt(s)` with no radix: leading white space is skipped, a sign
      is read, a `0x`/`0X` prefix selects base 16, and the longest run of
      digits is read; with no digit the result is `NaN`, modelled as `None`. */
  function ParseInt(s: string): (r: Option<int>)
    ensures IsBlank(s) ==> r.None?
  {
    var t := TrimStart(s);
    var sign := if t != [] && t[0] == '-' then -1 else 1;
    var u := if t != [] && (t[0] == '-' || t[0] == '+') then t[1..] else t;
    match ParseMagnitude(u)
    case None => None
    case Some(m) => Some(sign * m)
  }

  lemma {:induction false} ReadDecimalDigits(d: string, rest: string, acc: nat, count: nat)
    requires forall k :: 0 <= k < |d| ==> IsDigit(d[k])
    requires rest == [] || !IsDigit(rest[0])
    ensures ReadDigits(d + rest, 10, acc, count) == (acc * Pow10(|d|) + DigitsValue(d), count + |d|)
    decreases |d|
  {
    if d == [] {
      assert d + rest == rest;
    } else {
      var d0 := d[0] as int - '0' as int;
      var p := Pow10(|d| - 1);
      assert (d + rest)[1..] == d[1..] + rest;
      assert ReadDigits(d + rest, 10, acc, count) == ReadDigits(d[1..] + rest, 10, acc * 10 + d0, count + 1);
      ReadDecimalDigits(d[1..], rest, acc * 10 + d0, count + 1);
      DigitsValueFront(d);
      assert Pow10(|d|) == 10 * p;
      ShiftDigit(acc, d0, p);
    }
  }

  lemma ShiftDigit(acc: int, digit: int, p: int)
    ensures (acc * 10 + digit) * p == acc * (10 * p) + digit * p
  {
  }

  function Pow10(n: nat): nat
  {
    if n == 0 then 1 else 10 * Pow10(n - 1)
  }

  /** Reading a digit string from the left agrees with reading it from the right. */
  lemma {:induction false} DigitsValueFront(d: string)
    requires d != [] && forall k :: 0 <= k < |d| ==> IsDigit(d[k])
    ensures DigitsValue(d) == (d[0] as int - '0' as int) * Pow10(|d| - 1) + DigitsValue(d[1..])
    decreases |d|
  {
    if |d| > 1 {
      var init := d[..|d| - 1];
      DigitsValueFront(init);
      assert init[1..] == d[1..][..|d| - 2];
      assert init[0] == d[0];
      var last := d[|d| - 1] as int - '0' as int;
      assert DigitsValue(d) == DigitsValue(init) * 10 + last;
      assert DigitsValue(d[1..]) == DigitsValue(init[1..]) * 10 + last;
      ShiftFront(d[0] as int - '0' as int, Pow10(|d| - 2), DigitsValue(init[1..]), last);
    }
  }

  lemma ShiftFront(first: int, p: int, middle: int, last: int)
    ensures (first * p + middle) * 10 + last == first * (10 * p) + (middle * 10 + last)
  {
  }

  lemma ParseMagnitudeDecimal(d: string, rest: string)
    requires d != [] && forall k :: 0 <= k < |d| ==> IsDigit(d[k])
    requires rest == [] || !(IsDigit(rest[0]) || rest[0] == 'x' || rest[0] == 'X')
    ensures ParseMagnitude(d + rest) == Some(DigitsValue(d))
  {
    var s := d + rest;
    if |s| >= 2 {
      assert s[1] == (if |d| >= 2 then d[1] else rest[0]);
      assert !(s[1] == 'x' || s[1] == 'X');
    }
    ReadDecimalDigits(d, rest, 0, 0);
  }

  lemma ParseIntOfDigits(d: string, rest: string)
    requires d != [] && forall k :: 0 <= k < |d| ==> IsDigit(d[k])
    requires rest == [] || !(IsDigit(rest[0]) || rest[0] == 'x' || rest[0] == 'X')
    ensures ParseInt(d + rest) == Some(DigitsValue(d))
  {
    var s := d + rest;
    assert s[0] == d[0] && IsDigit(s[0]);
    ParseIntUnsigned(s);
    ParseMagnitudeDecimal(d, rest);
  }

  /** Without white space or a sign in front, `parseInt` reads the magnitude. */
  lemma ParseIntUnsigned(s: string)
    requires s != [] && IsDigit(s[0])
    ensures ParseMagnitude(s).None? ==> ParseInt(s).None?
    ensures ParseMagnitude(s).Some? ==> ParseInt(s) == Some(ParseMagnitude(s).value)
  {
    assert !IsSpace(s[0]);
    assert TrimStart(s) == s;
  }

  /** `parseInt` reads back a written-out natural number, ignoring what
      follows it, such as a fractional part: `parseInt("2.5")` is 2. */
  lemma ParseIntOfShown(n: nat, rest: string)
    requires rest == [] || !(IsDigit(rest[0]) || rest[0] == 'x' || rest[0] == 'X')
    ensures ParseInt(ShowNat(n) + rest) == Some(n)
  {
    ParseIntOfDigits(ShowNat(n), rest);
    ShowNatValue(n);
  }
}
