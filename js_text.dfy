/** The JavaScript string built-ins the storefront relies on, on the values
    this model uses: `String(n)` and template-literal rendering of integers,
    `toFixed(2)` on an amount held in integer cents, the price reading that
    stands for `parseFloat`, `Array.prototype.join`, `String.prototype.split`
    on a one-character separator, `String.prototype.trim`, and the
    `row[i] || ""` reading of a spreadsheet row. */
module JsText {

  datatype Option<+T> = None | Some(value: T)

  // ---------------------------------------------------------------- digits

  predicate IsDigit(c: char) {
    '0' <= c <= '9'
  }

  predicate AllDigits(s: string) {
    forall i :: 0 <= i < |s| ==> IsDigit(s[i])
  }

  function DigitValue(c: char): (d: nat)
    requires IsDigit(c)
    ensures d < 10
  {
    c as int - '0' as int
  }

  function DigitChar(d: nat): (c: char)
    requires d < 10
    ensures IsDigit(c) && DigitValue(c) == d
  {
    ('0' as int + d) as char
  }

  /** `String(n)` for a non-negative integer: its decimal digits, most
      significant first, without leading zeros. */
  function NatToString(n: nat): (s: string)
    ensures |s| > 0 && AllDigits(s)
    ensures |s| > 1 ==> s[0] != '0'
  {
    if n < 10 then [DigitChar(n)] else NatToString(n / 10) + [DigitChar(n % 10)]
  }

  /** The number a string of decimal digits denotes, read left to right. */
  function DigitsValue(s: string): (n: nat)
    requires AllDigits(s)
  {
    if s == [] then 0 else DigitsValue(s[..|s| - 1]) * 10 + DigitValue(s[|s| - 1])
  }

  lemma {:induction false} NatToStringRoundTrip(n: nat)
    ensures DigitsValue(NatToString(n)) == n
  {
    if n >= 10 {
      NatToStringRoundTrip(n / 10);
      var s := NatToString(n);
      assert s[..|s| - 1] == NatToString(n / 10);
    }
  }

  lemma NatToStringInjective(m: nat, n: nat)
    ensures NatToString(m) == NatToString(n) <==> m == n
  {
    NatToStringRoundTrip(m);
    NatToStringRoundTrip(n);
  }

  /** How JavaScript renders an integer in a template literal or `String(i)`. */
  function IntToString(i: int): (s: string)
    ensures i >= 0 ==> AllDigits(s)
    ensures i < 0 ==> |s| > 1 && s[0] == '-' && AllDigits(s[1..])
  {
    if i < 0 then "-" + NatToString(-i) else NatToString(i)
  }

  // ------------------------------------------------------------- amounts

  /** `(c / 100).toFixed(2)` for an amount of `c` cents: a minus sign for a
      negative amount, the whole units, a point and exactly two digits. */
  function FormatCents(c: int): (s: string)
    ensures |s| >= 4 && s[|s| - 3] == '.' && IsDigit(s[|s| - 2]) && IsDigit(s[|s| - 1])
  {
    if c < 0 then "-" + FormatUnsignedCents(-c) else FormatUnsignedCents(c)
  }

  function FormatUnsignedCents(c: nat): (s: string) {
    NatToString(c / 100) + "." + [DigitChar(c % 100 / 10), DigitChar(c % 10)]
  }

  /** Index of the first occurrence of `c` in `s`, or `|s|` when there is none. */
  function IndexOf(s: string, c: char): (k: nat)
    ensures k <= |s|
    ensures k < |s| ==> s[k] == c
    ensures forall i :: 0 <= i < k ==> s[i] != c
  {
    if s == [] then 0 else if s[0] == c then 0 else 1 + IndexOf(s[1..], c)
  }

  /** Reads a price cell: an optional '-', one or more digits, and optionally
      a '.' followed by one or two digits. Any other text reads as None,
      which the callers map to a price of 0. */
  function ParseCents(s: string): (r: Option<int>) {
    if |s| > 0 && s[0] == '-' then
      match ParseUnsignedCents(s[1..])
      case Some(v) => Some(-(v as int))
      case None => None
    else
      ParseUnsignedCents(s)
  }

  function ParseUnsignedCents(s: string): (r: Option<nat>) {
    var k := IndexOf(s, '.');
    if k == |s| then
      if |s| > 0 && AllDigits(s) then Some(DigitsValue(s) * 100) else None
    else
      var whole, frac := s[..k], s[k + 1..];
      if |whole| > 0 && AllDigits(whole) && 1 <= |frac| <= 2 && AllDigits(frac) then
        Some(DigitsValue(whole) * 100 + if |frac| == 1 then DigitsValue(frac) * 10 else DigitsValue(frac))
      else
        None
  }

  lemma {:induction false} IndexOfPastPrefix(a: string, b: string, c: char)
    requires forall i :: 0 <= i < |a| ==> a[i] != c
    requires |b| > 0 && b[0] == c
    ensures IndexOf(a + b, c) == |a|
  {
    if a != [] {
      assert (a + b)[1..] == a[1..] + b;
      IndexOfPastPrefix(a[1..], b, c);
    } else {
      assert a + b == b;
    }
  }

  lemma TwoDigitValue(r: nat)
    requires r < 100
    ensures DigitsValue([DigitChar(r / 10), DigitChar(r % 10)]) == r
  {
    var s := [DigitChar(r / 10), DigitChar(r % 10)];
    assert s[..1] == [DigitChar(r / 10)];
    assert [DigitChar(r / 10)][..0] == [];
    assert DigitsValue(s[..1]) == r / 10;
    assert DigitsValue(s) == (r / 10) * 10 + r % 10;
  }

  lemma UnsignedCentsRoundTrip(c: nat)
    ensures ParseUnsignedCents(FormatUnsignedCents(c)) == Some(c)
  {
    var w := NatToString(c / 100);
    var f := [DigitChar(c % 100 / 10), DigitChar(c % 10)];
    var s := FormatUnsignedCents(c);
    assert s == w + ("." + f);
    IndexOfPastPrefix(w, "." + f, '.');
    assert s[..|w|] == w;
    assert s[|w| + 1..] == f;
    NatToStringRoundTrip(c / 100);
    assert c % 100 % 10 == c % 10;
    TwoDigitValue(c % 100);
  }

  /** Reading back what `FormatCents` wrote gives the same amount. */
  lemma CentsRoundTrip(c: int)
    ensures ParseCents(FormatCents(c)) == Some(c)
  {
    if c < 0 {
      var u := FormatUnsignedCents(-c);
      var s := "-" + u;
      assert s[1..] == u;
      assert ParseUnsignedCents(u) == Some(-c) by {
        UnsignedCentsRoundTrip(-c);
      }
      assert ParseCents(s) == Some(c);
    } else {
      var u := FormatUnsignedCents(c);
      assert ParseUnsignedCents(u) == Some(c) by {
        UnsignedCentsRoundTrip(c);
      }
      assert u[0] != '-' by {
        assert u[0] == NatToString(c / 100)[0];
      }
    }
  }

  // ------------------------------------------------------ join and split

  /** `parts.join(sep)`. */
  function Join(parts: seq<string>, sep: string): (s: string) {
    if |parts| == 0 then ""
    else if |parts| == 1 then parts[0]
    else parts[0] + sep + Join(parts[1..], sep)
  }

  lemma {:induction false} JoinAppend(parts: seq<string>, x: string, sep: string)
    requires |parts| >= 1
    ensures Join(parts + [x], sep) == Join(parts, sep) + sep + x
  {
    if |parts| > 1 {
      assert (parts + [x])[1..] == parts[1..] + [x];
      JoinAppend(parts[1..], x, sep);
    }
  }

  /** `s.split(sep)` for a one-character separator: the maximal separator-free
      pieces, in order; the empty string gives one empty piece. */
  function Split(s: string, sep: char): (parts: seq<string>)
    ensures |parts| >= 1
    ensures forall i :: 0 <= i < |parts| ==> sep !in parts[i]
  {
    if s == [] then [""]
    else
      var rest := Split(s[1..], sep);
      if s[0] == sep then [""] + rest else [[s[0]] + rest[0]] + rest[1..]
  }

  /** Splitting and joining back with the same separator are inverse. */
  lemma {:induction false} JoinSplit(s: string, sep: char)
    ensures Join(Split(s, sep), [sep]) == s
  {
    if s != [] {
      var rest := Split(s[1..], sep);
      JoinSplit(s[1..], sep);
      if s[0] == sep {
        assert ([""] + rest)[1..] == rest;
      } else {
        var parts := [[s[0]] + rest[0]] + rest[1..];
        if |rest| > 1 {
          assert parts[1..] == rest[1..];
        }
      }
    }
  }

  lemma {:induction false} SplitAfterPiece(a: string, b: string, sep: char)
    requires sep !in a
    ensures Split(a + [sep] + b, sep) == [a] + Split(b, sep)
  {
    if a == [] {
      assert a + [sep] + b == [sep] + b;
      assert ([sep] + b)[1..] == b;
    } else {
      assert (a + [sep] + b)[1..] == a[1..] + [sep] + b;
      SplitAfterPiece(a[1..], b, sep);
      assert [a[0]] + a[1..] == a;
    }
  }

  lemma {:induction false} SplitWithoutSeparator(a: string, sep: char)
    requires sep !in a
    ensures Split(a, sep) == [a]
  {
    if a != [] {
      SplitWithoutSeparator(a[1..], sep);
      assert [a[0]] + a[1..] == a;
    }
  }

  /** Splitting `p + parts.join(sep + " ")` on `sep` gives back the parts,
      the first with `p` in front and each later one with a leading space. */
  lemma {:induction false} SplitJoinSpaced(p: string, parts: seq<string>, sep: char)
    requires |parts| >= 1 && sep != ' ' && sep !in p
    requires forall i :: 0 <= i < |parts| ==> sep !in parts[i]
    ensures var r := Split(p + Join(parts, [sep, ' ']), sep);
      && |r| == |parts|
      && r[0] == p + parts[0]
      && forall i :: 1 <= i < |r| ==> r[i] == " " + parts[i]
    decreases |parts|
  {
    if |parts| == 1 {
      SplitWithoutSeparator(p + parts[0], sep);
    } else {
      var tail := Join(parts[1..], [sep, ' ']);
      var r := Split(p + Join(parts, [sep, ' ']), sep);
      var rest := Split(" " + tail, sep);
      assert r == [p + parts[0]] + rest by {
        assert p + Join(parts, [sep, ' ']) == (p + parts[0]) + [sep] + (" " + tail);
        SplitAfterPiece(p + parts[0], " " + tail, sep);
      }
      assert |rest| == |parts| - 1 && forall i :: 0 <= i < |rest| ==> rest[i] == " " + parts[i + 1] by {
        SplitJoinSpaced(" ", parts[1..], sep);
      }
    }
  }

  // ------------------------------------------------------------ sheet rows

  /** A spreadsheet row as the Sheets API returns it: its cells' text. */
  type Row = seq<string>

  /** `row[i] || ""`: a missing cell and an empty one both read as "". */
  function Cell(row: Row, i: nat): (cell: string) {
    if i < |row| then row[i] else ""
  }

  // ----------------------------------------------------------------- trim

  /** The white-space characters `trim` removes that this model knows of. */
  predicate IsWhitespace(c: char) {
    c == ' ' || c == '\t' || c == '\n' || c == '\r' || c == '\U{000B}' || c == '\U{000C}'
    || c == '\U{00A0}' || c == '\U{FEFF}'
  }

  function TrimStart(s: string): (r: string)
    ensures |r| <= |s| && r == s[|s| - |r|..]
    ensures r == [] || !IsWhitespace(r[0])
    ensures forall i :: 0 <= i < |s| - |r| ==> IsWhitespace(s[i])
  {
    if s != [] && IsWhitespace(s[0]) then TrimStart(s[1..]) else s
  }

  function TrimEnd(s: string): (r: string)
    ensures |r| <= |s| && r == s[..|r|]
    ensures r == [] || !IsWhitespace(r[|r| - 1])
    ensures forall i :: |r| <= i < |s| ==> IsWhitespace(s[i])
  {
    if s != [] && IsWhitespace(s[|s| - 1]) then TrimEnd(s[..|s| - 1]) else s
  }

  predicate IsTrimmed(s: string) {
    s == [] || (!IsWhitespace(s[0]) && !IsWhitespace(s[|s| - 1]))
  }

  /** `s.trim()`: white space removed from both ends. */
  function Trim(s: string): (r: string)
    ensures IsTrimmed(r)
  {
    TrimEnd(TrimStart(s))
  }

  lemma TrimOfTrimmed(s: string)
    requires IsTrimmed(s)
    ensures Trim(s) == s
  {
  }

  lemma TrimDropsLeadingSpace(s: string)
    requires IsTrimmed(s)
    ensures Trim(" " + s) == s
  {
    assert (" " + s)[1..] == s;
  }
}
