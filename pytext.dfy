/**
 * The Python `str` operations that the dashboards apply to serial lines,
 * written out on `seq<char>`: `startswith`, `replace(pat, "")`, `split(",")`,
 * `strip()`, `isdigit()`, `int(...)` on a string, `str(...)` of an integer,
 * and the list comprehension `[int(f) for f in tokens]`.
 */
module PyText {
  import opened Options

  // ---------------------------------------------------------------------------
  // sequence identities, stated once so that the proofs below stay small
  // ---------------------------------------------------------------------------

  lemma HeadTail<T>(s: seq<T>)
    requires s != []
    ensures s == [s[0]] + s[1..]
  {
  }

  lemma ConsAppend<T>(a: seq<T>, b: seq<T>)
    requires a != []
    ensures (a + b)[0] == a[0] && (a + b)[1..] == a[1..] + b
  {
  }

  lemma ConsOne<T>(x: T, s: seq<T>)
    ensures ([x] + s)[0] == x && ([x] + s)[1..] == s
  {
  }

  lemma AppendAssoc<T>(a: seq<T>, b: seq<T>, c: seq<T>)
    ensures a + (b + c) == (a + b) + c
  {
  }

  // ---------------------------------------------------------------------------
  // startswith and replace
  // ---------------------------------------------------------------------------

  /** `s.startswith(p)` */
  predicate StartsWith(s: string, p: string) {
    |p| <= |s| && s[..|p|] == p
  }

  /** A string that differs from `p` at some index of both does not start with `p`. */
  lemma DiffersAt(s: string, p: string, i: nat)
    requires i < |s| && i < |p| && s[i] != p[i]
    ensures !StartsWith(s, p)
  {
  }

  /** `pat` occurs in `s` at index `i`. */
  predicate OccursAt(s: string, pat: string, i: int) {
    0 <= i && i + |pat| <= |s| && s[i..i + |pat|] == pat
  }

  /**
   * `s.replace(pat, "")`: every occurrence of `pat` found by a left-to-right
   * scan is removed (occurrences do not overlap).
   */
  function RemoveAll(s: string, pat: string): (r: string)
    requires pat != []
    decreases |s|
  {
    if |s| < |pat| then s
    else if s[..|pat|] == pat then RemoveAll(s[|pat|..], pat)
    else [s[0]] + RemoveAll(s[1..], pat)
  }

  /** Removing a pattern that never occurs leaves the string as it is. */
  lemma {:induction false} RemoveAllAbsent(s: string, pat: string)
    requires pat != []
    requires forall i :: !OccursAt(s, pat, i)
    ensures RemoveAll(s, pat) == s
    decreases |s|
  {
    if |s| >= |pat| {
      assert !OccursAt(s, pat, 0);
      forall i ensures !OccursAt(s[1..], pat, i) {
        if OccursAt(s[1..], pat, i) {
          assert s[1..][i..i + |pat|] == s[i + 1..i + 1 + |pat|];
          assert OccursAt(s, pat, i + 1);
        }
      }
      RemoveAllAbsent(s[1..], pat);
    }
  }

  /** A string without the pattern's first character does not contain the pattern. */
  lemma NotOccursWithoutHead(s: string, pat: string)
    requires pat != [] && pat[0] !in s
    ensures forall i :: !OccursAt(s, pat, i)
  {
    forall i ensures !OccursAt(s, pat, i) {
      if 0 <= i && i + |pat| <= |s| {
        assert s[i..i + |pat|][0] == s[i] != pat[0];
      }
    }
  }

  /**
   * On a line that starts with the prefix and does not contain the prefix's
   * first character afterwards, `replace(prefix, "")` is the same as cutting
   * the prefix off.
   */
  lemma RemoveAllPrefix(prefix: string, rest: string)
    requires prefix != [] && prefix[0] !in rest
    ensures RemoveAll(prefix + rest, prefix) == rest
  {
    assert (prefix + rest)[..|prefix|] == prefix;
    assert (prefix + rest)[|prefix|..] == rest;
    NotOccursWithoutHead(rest, prefix);
    RemoveAllAbsent(rest, prefix);
  }

  // ---------------------------------------------------------------------------
  // split and join
  // ---------------------------------------------------------------------------

  /**
   * `s.split(sep)` for a one-character separator: the pieces between the
   * separators, so always at least one piece (`"".split(",") == [""]`).
   */
  function Split(s: string, sep: char): (r: seq<string>)
    ensures |r| >= 1
    ensures forall k :: 0 <= k < |r| ==> sep !in r[k]
  {
    if s == [] then [[]]
    else
      var rest := Split(s[1..], sep);
      if s[0] == sep then [[]] + rest
      else [[s[0]] + rest[0]] + rest[1..]
  }

  /** `sep.join(pieces)` */
  function Join(pieces: seq<string>, sep: char): string {
    if |pieces| == 0 then []
    else if |pieces| == 1 then pieces[0]
    else pieces[0] + [sep] + Join(pieces[1..], sep)
  }

  /** Only the empty string splits into the single empty piece (`"".split(",") == [""]`). */
  lemma SplitEmptyOnly(s: string, sep: char)
    ensures Split(s, sep) == [[]] <==> s == []
  {
    if Split(s, sep) == [[]] {
      SplitJoin(s, sep);
    }
  }

  /** The last piece of a join comes after the last separator. */
  lemma {:induction false} JoinLast(pieces: seq<string>, sep: char)
    requires |pieces| >= 2
    ensures Join(pieces, sep) == Join(pieces[..|pieces| - 1], sep) + [sep] + pieces[|pieces| - 1]
  {
    var n := |pieces|;
    if n > 2 {
      JoinLast(pieces[1..], sep);
      assert pieces[1..][..n - 2] == pieces[..n - 1][1..];
    } else {
      assert pieces[1..] == [pieces[1]];
    }
  }

  /** Joining the pieces of a split gives back the string. */
  lemma {:induction false} SplitJoin(s: string, sep: char)
    ensures Join(Split(s, sep), sep) == s
  {
    if s != [] {
      SplitJoin(s[1..], sep);
      var rest := Split(s[1..], sep);
      if s[0] == sep {
        assert ([[]] + rest)[1..] == rest;
      } else {
        assert ([[s[0]] + rest[0]] + rest[1..])[1..] == rest[1..];
        if |rest| > 1 {
          assert Join(rest, sep) == rest[0] + [sep] + Join(rest[1..], sep);
        }
      }
    }
  }

  /** Splitting `p + tail`, where `p` holds no separator, glues `p` onto the first piece. */
  lemma {:induction false} SplitAfterPiece(p: string, tail: string, sep: char)
    requires sep !in p
    ensures Split(p + tail, sep) == [p + Split(tail, sep)[0]] + Split(tail, sep)[1..]
  {
    var t := Split(tail, sep);
    if p == [] {
      assert p + tail == tail;
      assert p + t[0] == t[0];
      assert t == [t[0]] + t[1..];
    } else {
      assert (p + tail)[0] == p[0] != sep;
      assert (p + tail)[1..] == p[1..] + tail;
      SplitAfterPiece(p[1..], tail, sep);
      var rest := Split(p[1..] + tail, sep);
      assert rest == [p[1..] + t[0]] + t[1..];
      assert Split(p + tail, sep) == [[p[0]] + rest[0]] + rest[1..];
      assert [p[0]] + (p[1..] + t[0]) == p + t[0];
    }
  }

  /** Splitting the join of separator-free pieces gives back the pieces. */
  lemma {:induction false} JoinSplit(pieces: seq<string>, sep: char)
    requires |pieces| >= 1
    requires forall k :: 0 <= k < |pieces| ==> sep !in pieces[k]
    ensures Split(Join(pieces, sep), sep) == pieces
  {
    if |pieces| == 1 {
      SplitAfterPiece(pieces[0], [], sep);
      assert pieces[0] + [] == pieces[0];
    } else {
      var tail := Join(pieces[1..], sep);
      JoinSplit(pieces[1..], sep);
      assert Join(pieces, sep) == pieces[0] + ([sep] + tail);
      SplitAfterPiece(pieces[0], [sep] + tail, sep);
      assert ([sep] + tail)[1..] == tail;
      var rest := Split([sep] + tail, sep);
      assert rest == [[]] + pieces[1..];
      assert pieces[0] + rest[0] == pieces[0];
      assert pieces == [pieces[0]] + pieces[1..];
    }
  }

  // ---------------------------------------------------------------------------
  // strip
  // ---------------------------------------------------------------------------

  /** Python's `str.isspace()` on one character. */
  predicate IsSpace(c: char) {
    if c <= '\U{A0}' then
      c == ' ' || ('\t' <= c <= '\r') || ('\U{1C}' <= c <= '\U{1F}') || c == '\U{85}' || c == '\U{A0}'
    else
      IsWideSpace(c)
  }

  /** The white-space characters above U+00A0. */
  predicate IsWideSpace(c: char) {
    c == '\U{1680}' || ('\U{2000}' <= c <= '\U{200A}') || c == '\U{2028}' || c == '\U{2029}'
    || c == '\U{202F}' || c == '\U{205F}' || c == '\U{3000}'
  }

  /** `s.lstrip()`: a suffix of `s` that does not start with white space. */
  function TrimLeft(s: string): (r: string)
    ensures |r| <= |s| && r == s[|s| - |r|..]
    ensures r == [] || !IsSpace(r[0])
  {
    if s != [] && IsSpace(s[0]) then TrimLeft(s[1..]) else s
  }

  /** `s.rstrip()`: a prefix of `s` that does not end with white space. */
  function TrimRight(s: string): (r: string)
    ensures |r| <= |s| && r == s[..|r|]
    ensures r == [] || !IsSpace(r[|r| - 1])
  {
    if s != [] && IsSpace(s[|s| - 1]) then TrimRight(s[..|s| - 1]) else s
  }

  /** `s.strip()` */
  function Strip(s: string): (r: string)
    ensures |r| <= |s|
    ensures r == [] || (!IsSpace(r[0]) && !IsSpace(r[|r| - 1]))
  {
    TrimRight(TrimLeft(s))
  }

  /** `strip()` leaves a string alone exactly when it neither starts nor ends with white space. */
  lemma StripIdentity(s: string)
    ensures Strip(s) == s <==> (s == [] || (!IsSpace(s[0]) && !IsSpace(s[|s| - 1])))
  {
    if s != [] && !IsSpace(s[0]) && !IsSpace(s[|s| - 1]) {
      assert TrimLeft(s) == s;
      assert TrimRight(s) == s;
    }
  }

  /** A character of a formatted number or number list. */
  predicate IsNumeralChar(c: char) {
    IsDigit(c) || c == '-' || c == ','
  }

  /** A number's digits, its sign and list commas are not white space. */
  lemma NumeralNotSpace(c: char)
    requires IsNumeralChar(c)
    ensures !IsSpace(c)
  {
  }

  /** A string that starts and ends with a digit, sign or comma is its own `strip()`. */
  lemma StripNumerals(s: string)
    requires s != [] ==> IsNumeralChar(s[0]) && IsNumeralChar(s[|s| - 1])
    ensures Strip(s) == s
  {
    if s != [] {
      NumeralNotSpace(s[0]);
      NumeralNotSpace(s[|s| - 1]);
    }
    StripIdentity(s);
  }

  /** A string of white space only is stripped to nothing. */
  lemma {:induction false} BlankStrips(s: string)
    requires forall i :: 0 <= i < |s| ==> IsSpace(s[i])
    ensures Strip(s) == []
  {
    if s != [] {
      BlankStrips(s[1..]);
      assert TrimLeft(s) == TrimLeft(s[1..]);
    }
  }

  // ---------------------------------------------------------------------------
  // isdigit and int(...)
  // ---------------------------------------------------------------------------

  predicate IsDigit(c: char) {
    '0' <= c <= '9'
  }

  /** `s.isdigit()`: non-empty and every character a decimal digit. */
  predicate IsDigits(s: string) {
    |s| > 0 && forall i :: 0 <= i < |s| ==> IsDigit(s[i])
  }

  /** The value of a string of decimal digits (leading zeros allowed). */
  function DigitsValue(s: string): nat
    requires forall i :: 0 <= i < |s| ==> IsDigit(s[i])
  {
    if s == [] then 0
    else
      assert IsDigit(s[|s| - 1]);
      DigitsValue(s[..|s| - 1]) * 10 + (s[|s| - 1] as int - '0' as int)
  }

  /** Digits with single underscores between them, as `int()` accepts after the sign. */
  predicate IsDecimalBody(b: string) {
    && |b| > 0
    && IsDigit(b[0]) && IsDigit(b[|b| - 1])
    && (forall i :: 0 <= i < |b| ==> IsDigit(b[i]) || b[i] == '_')
    && (forall i :: 0 <= i < |b| - 1 ==> !DoubleUnderscoreAt(b, i))
  }

  predicate DoubleUnderscoreAt(b: string, i: int)
    requires 0 <= i < |b| - 1
  {
    b[i] == '_' && b[i + 1] == '_'
  }

  /** The digits of `b` without the underscores. */
  function DropUnderscores(b: string): (r: string)
    requires forall i :: 0 <= i < |b| ==> IsDigit(b[i]) || b[i] == '_'
    ensures forall i :: 0 <= i < |r| ==> IsDigit(r[i])
  {
    if b == [] then []
    else if b[0] == '_' then DropUnderscores(b[1..])
    else [b[0]] + DropUnderscores(b[1..])
  }

  /**
   * `int(s)` on a string: white space around the number, an optional sign,
   * then decimal digits (underscores allowed between digits). `None` is the
   * `ValueError` that Python raises for anything else. The white space that
   * `int()` skips is narrower than that of `strip()`: the separators U+001C
   * to U+001F are not skipped.
   */
  function ParseInt(s: string): (r: Option<int>)
    ensures r.Some? ==> IntStrip(s) != []
  {
    ParseStripped(IntStrip(s))
  }

  /** `int()` once the surrounding white space is gone. */
  function ParseStripped(t: string): (r: Option<int>)
    ensures r.Some? ==> t != []
  {
    if |t| > 0 && (t[0] == '+' || t[0] == '-') then
      var body := t[1..];
      if IsDecimalBody(body) then
        var v: int := DigitsValue(DropUnderscores(body));
        Some(if t[0] == '-' then -v else v)
      else None
    else if IsDecimalBody(t) then Some(DigitsValue(DropUnderscores(t)))
    else None
  }

  /** The white space that `int()` skips around a number: `isspace()` without U+001C to U+001F. */
  predicate IsIntSpace(c: char) {
    IsSpace(c) && !('\U{1C}' <= c <= '\U{1F}')
  }

  /** The string without the leading white space that `int()` skips. */
  function IntTrimLeft(s: string): (r: string)
    ensures |r| <= |s| && r == s[|s| - |r|..]
    ensures forall i :: 0 <= i < |s| - |r| ==> IsIntSpace(s[i])
    ensures r == [] || !IsIntSpace(r[0])
  {
    if s != [] && IsIntSpace(s[0]) then IntTrimLeft(s[1..]) else s
  }

  /** The string without the trailing white space that `int()` skips. */
  function IntTrimRight(s: string): (r: string)
    ensures |r| <= |s| && r == s[..|r|]
    ensures forall i :: |r| <= i < |s| ==> IsIntSpace(s[i])
  {
    if s != [] && IsIntSpace(s[|s| - 1]) then IntTrimRight(s[..|s| - 1]) else s
  }

  /** What `int()` reads after skipping white space at both ends. */
  function IntStrip(s: string): string {
    IntTrimRight(IntTrimLeft(s))
  }

  /** A string that `int()` accepts starts with a sign or digit and ends with a digit. */
  lemma ParsedEnds(t: string)
    requires ParseStripped(t).Some?
    ensures t != [] && !IsSpace(t[0]) && !IsSpace(t[|t| - 1])
  {
    if t[0] == '+' || t[0] == '-' {
      assert t[|t| - 1] == t[1..][|t[1..]| - 1];
    }
  }

  /** Skipping leading white space up to the first other character. */
  lemma {:induction false} TrimLeftSkips(s: string, n: nat)
    requires n < |s| && !IsSpace(s[n])
    requires forall i :: 0 <= i < n ==> IsSpace(s[i])
    ensures TrimLeft(s) == s[n..]
    decreases n
  {
    if n > 0 {
      assert IsSpace(s[0]);
      TrimLeftSkips(s[1..], n - 1);
      assert s[1..][n - 1..] == s[n..];
    }
  }

  /** Skipping trailing white space down to the last other character. */
  lemma {:induction false} TrimRightSkips(s: string, n: nat)
    requires 0 < n <= |s| && !IsSpace(s[n - 1])
    requires forall i :: n <= i < |s| ==> IsSpace(s[i])
    ensures TrimRight(s) == s[..n]
    decreases |s| - n
  {
    if n < |s| {
      assert IsSpace(s[|s| - 1]);
      TrimRightSkips(s[..|s| - 1], n);
      assert s[..|s| - 1][..n] == s[..n];
    }
  }

  /**
   * When `int()` accepts a string, it read exactly what `strip()` leaves:
   * the two trims agree because the number's ends are not white space.
   */
  lemma ParseIntStrips(s: string)
    requires ParseInt(s).Some?
    ensures Strip(s) == IntStrip(s)
  {
    var l := IntTrimLeft(s);
    var m := IntStrip(s);
    ParsedEnds(m);
    assert l[0] == m[0];
    TrimLeftSkips(s, |s| - |l|);
    assert l[|m| - 1] == m[|m| - 1];
    TrimRightSkips(l, |m|);
  }

  /** A string that starts and ends with a digit, sign or comma is read by `int()` as it stands. */
  lemma IntStripNumerals(s: string)
    requires s != [] ==> IsNumeralChar(s[0]) && IsNumeralChar(s[|s| - 1])
    ensures IntStrip(s) == s
  {
    if s != [] {
      NumeralNotSpace(s[0]);
      NumeralNotSpace(s[|s| - 1]);
      assert IntTrimLeft(s) == s;
      assert IntTrimRight(s) == s;
    }
  }

  /**
   * A token that `isdigit()` after `strip()` and that `int()` accepts is read
   * as its digits' value.
   */
  lemma ParseDigitToken(t: string)
    requires IsDigits(Strip(t)) && ParseInt(t).Some?
    ensures ParseInt(t) == Some(DigitsValue(Strip(t)))
  {
    ParseIntStrips(t);
    ParseStrippedDigits(Strip(t));
  }

  /** `int("\x1c5")` raises, although `"\x1c5".strip().isdigit()` holds. */
  lemma SeparatorNotSkipped()
    ensures IsDigits(Strip("\U{1C}5")) && ParseInt("\U{1C}5").None?
  {
    SeparatorStripped();
    SeparatorKept();
  }

  lemma SeparatorStripped()
    ensures Strip("\U{1C}5") == "5"
  {
    var t, five := "\U{1C}5", "5";
    assert t[0] == '\U{1C}' && t[1..] == five;
    assert IsSpace(t[0]) && !IsSpace(t[1]);
    TrimLeftSkips(t, 1);
    assert TrimRight(five) == five;
  }

  lemma SeparatorKept()
    ensures ParseInt("\U{1C}5").None?
  {
    var t := "\U{1C}5";
    assert t[0] == '\U{1C}' && t[1] == '5';
    assert IntTrimLeft(t) == t;
    assert IntTrimRight(t) == t;
    assert !IsDecimalBody(t);
  }

  lemma ParseStrippedDigits(u: string)
    requires IsDigits(u)
    ensures ParseStripped(u) == Some(DigitsValue(u))
  {
    assert IsDecimalBody(u);
    DropUnderscoresOfDigits(u);
  }

  lemma {:induction false} DropUnderscoresOfDigits(s: string)
    requires forall i :: 0 <= i < |s| ==> IsDigit(s[i])
    ensures DropUnderscores(s) == s
  {
    if s != [] {
      DropUnderscoresOfDigits(s[1..]);
    }
  }

  // ---------------------------------------------------------------------------
  // str(...) of an integer
  // ---------------------------------------------------------------------------

  function DigitChar(d: nat): (c: char)
    requires d < 10
    ensures IsDigit(c) && c as int - '0' as int == d
  {
    (d + '0' as int) as char
  }

  /** `str(n)` for `n >= 0`: decimal digits without leading zeros, whose value is `n`. */
  function NatToString(n: nat): (r: string)
    ensures IsDigits(r)
    ensures DigitsValue(r) == n
    ensures r[0] == '0' ==> r == "0"
  {
    if n < 10 then [DigitChar(n)]
    else
      var r := NatToString(n / 10) + [DigitChar(n % 10)];
      assert r[..|r| - 1] == NatToString(n / 10);
      r
  }

  /** `str(n)` */
  function IntToString(n: int): (r: string)
    ensures |r| > 0
    ensures forall i :: 0 <= i < |r| ==> IsDigit(r[i]) || (i == 0 && r[i] == '-')
  {
    if n < 0 then "-" + NatToString(-n) else NatToString(n)
  }

  /** `int(str(n)) == n` */
  lemma ParseIntToString(n: int)
    ensures ParseInt(IntToString(n)) == Some(n)
  {
    if n < 0 {
      ParseNegativeDigits(NatToString(-n));
    } else {
      ParseDigits(NatToString(n));
    }
  }

  /** `int()` of a digit string is its value. */
  lemma ParseDigits(d: string)
    requires IsDigits(d)
    ensures ParseInt(d) == Some(DigitsValue(d))
  {
    IntStripNumerals(d);
    ParseStrippedDigits(d);
  }

  /** `int()` of a minus sign followed by digits is the negated value. */
  lemma ParseNegativeDigits(d: string)
    requires IsDigits(d)
    ensures ParseInt("-" + d) == Some(-(DigitsValue(d) as int))
  {
    var s := "-" + d;
    assert s[0] == '-' && s[|s| - 1] == d[|d| - 1];
    IntStripNumerals(s);
    ParseStrippedNegative(d);
  }

  lemma ParseStrippedNegative(d: string)
    requires IsDigits(d)
    ensures ParseStripped("-" + d) == Some(-(DigitsValue(d) as int))
  {
    var s := "-" + d;
    assert s[0] == '-' && s[1..] == d;
    assert IsDecimalBody(d);
    DropUnderscoresOfDigits(d);
  }

  // ---------------------------------------------------------------------------
  // [int(f) for f in tokens]
  // ---------------------------------------------------------------------------

  /**
   * `[int(f) for f in tokens]`: every token is converted, and the first one
   * that is not an integer makes the whole list fail (`None`).
   */
  function ParseAll(tokens: seq<string>): (r: Option<seq<int>>)
    ensures r.Some? ==> |r.value| == |tokens|
    ensures r.Some? <==> forall k :: 0 <= k < |tokens| ==> ParseInt(tokens[k]).Some?
    ensures r.Some? ==> forall k :: 0 <= k < |tokens| ==> r.value[k] == ParseInt(tokens[k]).value
  {
    if tokens == [] then Some([])
    else
      var head, rest := ParseInt(tokens[0]), ParseAll(tokens[1..]);
      if head.None? || rest.None? then None
      else
        ConsOne(head.value, rest.value);
        Some([head.value] + rest.value)
  }
}
