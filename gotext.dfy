/**
 * The parts of Go's standard library that the bot's logic leans on, stated as
 * functions on strings: `strings.HasPrefix`, `TrimPrefix`, `Contains`, `Split`,
 * `Join`, `TrimSpace`, the decimal formatting of `fmt`'s `%d`,
 * `strconv.ParseInt(s, 10, 64)` and `fmt.Sscanf(s, "%d", &n)`.
 * A string is a sequence of characters, one per code point; only the byte
 * offsets `TruncateText` slices at and the offsets of message entities are
 * taken as character positions.
 */
module GoText {
  import opened Wrappers

  const MinInt64: int := -0x8000_0000_0000_0000
  const MaxInt64: int := 0x7fff_ffff_ffff_ffff

  /** Go's int64, the type of every Telegram identifier. */
  type Int64 = x: int | MinInt64 <= x <= MaxInt64

  // ---------------------------------------------------------------- prefixes

  predicate HasPrefix(s: string, p: string) {
    |p| <= |s| && s[..|p|] == p
  }

  /** A string that differs from `p` at one of `p`'s positions does not start with `p`. */
  lemma DiffersAt(d: string, p: string, i: nat)
    requires i < |p| && i < |d| && d[i] != p[i]
    ensures !HasPrefix(d, p)
  {
  }

  function TrimPrefix(s: string, p: string): (r: string)
    ensures HasPrefix(s, p) ==> p + r == s
    ensures !HasPrefix(s, p) ==> r == s
  {
    if HasPrefix(s, p) then s[|p|..] else s
  }

  /** `strings.Contains`: `t` occurs somewhere in `s`. */
  predicate Contains(s: string, t: string) {
    exists i | 0 <= i <= |s| - |t| :: OccursAt(s, t, i)
  }

  predicate OccursAt(s: string, t: string, i: int)
    requires 0 <= i <= |s| - |t|
  {
    s[i..i + |t|] == t
  }

  lemma ContainsSlice(s: string, lo: int, hi: int)
    requires 0 <= lo <= hi <= |s|
    ensures Contains(s, s[lo..hi])
  {
    assert OccursAt(s, s[lo..hi], lo);
  }

  // ---------------------------------------------------- splitting and joining

  /** `strings.Split` with a one-character separator: never empty, and no part holds the separator. */
  function Split(s: string, sep: char): (parts: seq<string>)
    ensures |parts| >= 1
    ensures forall k :: 0 <= k < |parts| ==> sep !in parts[k]
  {
    if |s| == 0 then [""]
    else if s[0] == sep then [""] + Split(s[1..], sep)
    else
      var rest := Split(s[1..], sep);
      [[s[0]] + rest[0]] + rest[1..]
  }

  /** `strings.Join` with a one-character separator. */
  function Join(parts: seq<string>, sep: char): string
    decreases |parts|
  {
    if |parts| == 0 then ""
    else if |parts| == 1 then parts[0]
    else parts[0] + [sep] + Join(parts[1..], sep)
  }

  /** Joining one more part adds the separator and the part at the end. */
  lemma {:induction false} JoinSnoc(parts: seq<string>, x: string, sep: char)
    requires |parts| >= 1
    ensures Join(parts + [x], sep) == Join(parts, sep) + [sep] + x
    decreases |parts|
  {
    if |parts| > 1 {
      JoinSnoc(parts[1..], x, sep);
      assert (parts + [x])[1..] == parts[1..] + [x];
    } else {
      assert (parts + [x])[1..] == [x];
    }
  }

  lemma {:induction false} SplitWithoutSeparator(x: string, sep: char)
    requires sep !in x
    ensures Split(x, sep) == [x]
  {
    if |x| > 0 {
      SplitWithoutSeparator(x[1..], sep);
      assert [x[0]] + x[1..] == x;
    }
  }

  /** A separator after a separator-free prefix cuts exactly there. */
  lemma {:induction false} SplitAtFirstSeparator(x: string, sep: char, rest: string)
    requires sep !in x
    ensures Split(x + [sep] + rest, sep) == [x] + Split(rest, sep)
  {
    var s := x + [sep] + rest;
    if |x| == 0 {
      assert s[0] == sep && s[1..] == rest;
    } else {
      assert s[0] == x[0] && s[1..] == x[1..] + [sep] + rest;
      SplitAtFirstSeparator(x[1..], sep, rest);
      assert [x[0]] + x[1..] == x;
    }
  }

  /** Splitting undoes joining when no part holds the separator. */
  lemma {:induction false} SplitJoin(parts: seq<string>, sep: char)
    requires |parts| >= 1
    requires forall k :: 0 <= k < |parts| ==> sep !in parts[k]
    ensures Split(Join(parts, sep), sep) == parts
  {
    if |parts| == 1 {
      SplitWithoutSeparator(parts[0], sep);
    } else {
      SplitJoin(parts[1..], sep);
      SplitAtFirstSeparator(parts[0], sep, Join(parts[1..], sep));
      assert [parts[0]] + parts[1..] == parts;
    }
  }

  /** Joining undoes splitting: `Split` loses nothing. */
  lemma {:induction false} JoinSplit(s: string, sep: char)
    ensures Join(Split(s, sep), sep) == s
  {
    if |s| > 0 {
      JoinSplit(s[1..], sep);
      var rest := Split(s[1..], sep);
      if s[0] == sep {
        assert ([""] + rest)[1..] == rest;
        assert [s[0]] + s[1..] == s;
      } else {
        var parts := [[s[0]] + rest[0]] + rest[1..];
        if |rest| == 1 {
          assert [s[0]] + s[1..] == s;
        } else {
          assert parts[1..] == rest[1..];
          assert Join(rest, sep) == rest[0] + [sep] + Join(rest[1..], sep);
          assert [s[0]] + s[1..] == s;
        }
      }
    }
  }

  // ------------------------------------------------------------- white space

  /** Go's `unicode.IsSpace`, which `strings.TrimSpace` and `fmt`'s scanner both use. */
  predicate IsSpace(c: char) {
    var u := c as int;
    (0x09 <= u <= 0x0d) || u == 0x20 || u == 0x85 || u == 0xa0 || u == 0x1680
    || (0x2000 <= u <= 0x200a) || u == 0x2028 || u == 0x2029 || u == 0x202f
    || u == 0x205f || u == 0x3000
  }

  function TrimLeftSpace(s: string): (r: string)
    ensures |r| <= |s| && r == s[|s| - |r|..]
    ensures forall k :: 0 <= k < |s| - |r| ==> IsSpace(s[k])
    ensures r == "" || !IsSpace(r[0])
  {
    if |s| > 0 && IsSpace(s[0]) then TrimLeftSpace(s[1..]) else s
  }

  function TrimRightSpace(s: string): (r: string)
    ensures |r| <= |s| && r == s[..|r|]
    ensures forall k :: |r| <= k < |s| ==> IsSpace(s[k])
    ensures r == "" || !IsSpace(r[|r| - 1])
  {
    if |s| > 0 && IsSpace(s[|s| - 1]) then TrimRightSpace(s[..|s| - 1]) else s
  }

  /** `strings.TrimSpace`: the longest middle part of `s` that neither starts nor ends with a space. */
  function TrimSpace(s: string): (r: string)
    ensures exists lo, hi | 0 <= lo <= hi <= |s| ::
              (r == s[lo..hi]
               && (forall k :: 0 <= k < lo ==> IsSpace(s[k]))
               && (forall k :: hi <= k < |s| ==> IsSpace(s[k])))
    ensures r == "" || (!IsSpace(r[0]) && !IsSpace(r[|r| - 1]))
  {
    var left := TrimLeftSpace(s);
    var r := TrimRightSpace(left);
    TrimmedMiddle(s, left, r);
    r
  }

  /** Where the two trims cut: after the leading spaces and before the trailing ones. */
  lemma TrimmedMiddle(s: string, left: string, r: string)
    requires |left| <= |s| && left == s[|s| - |left|..]
    requires forall k :: 0 <= k < |s| - |left| ==> IsSpace(s[k])
    requires |r| <= |left| && r == left[..|r|]
    requires forall k :: |r| <= k < |left| ==> IsSpace(left[k])
    ensures var lo := |s| - |left|;
            0 <= lo <= lo + |r| <= |s| && r == s[lo..lo + |r|]
            && (forall k :: 0 <= k < lo ==> IsSpace(s[k]))
            && (forall k :: lo + |r| <= k < |s| ==> IsSpace(s[k]))
  {
    var lo := |s| - |left|;
    assert r == s[lo..lo + |r|] by {
      forall i | 0 <= i < |r| ensures r[i] == s[lo + i] { assert r[i] == left[i]; }
    }
    forall k | lo + |r| <= k < |s| ensures IsSpace(s[k]) { assert s[k] == left[k - lo]; }
  }

  // ------------------------------------------------------------ decimal text

  predicate IsDigit(c: char) { '0' <= c <= '9' }

  predicate AllDigits(s: string) { forall k :: 0 <= k < |s| ==> IsDigit(s[k]) }

  function DigitChar(d: nat): (c: char)
    requires d < 10
    ensures IsDigit(c) && c as int - '0' as int == d
  {
    ('0' as int + d) as char
  }

  /** The value of a string of decimal digits, read most significant first. */
  function DigitsValue(s: string): nat
    requires AllDigits(s)
  {
    if |s| == 0 then 0 else DigitsValue(s[..|s| - 1]) * 10 + (s[|s| - 1] as int - '0' as int)
  }

  /** The decimal digits of `n` with no leading zero, as `%d` prints them. */
  function FormatNat(n: nat): (s: string)
    ensures |s| >= 1 && AllDigits(s)
    ensures |s| > 1 ==> s[0] != '0'
  {
    if n < 10 then [DigitChar(n)] else FormatNat(n / 10) + [DigitChar(n % 10)]
  }

  /** `fmt.Sprintf("%d", n)`. */
  function FormatInt(n: int): (s: string)
    ensures |s| >= 1
    ensures forall k :: 0 <= k < |s| ==> IsDigit(s[k]) || (k == 0 && s[k] == '-')
  {
    if n < 0 then "-" + FormatNat(-n) else FormatNat(n)
  }

  lemma {:induction false} FormatNatValue(n: nat)
    ensures DigitsValue(FormatNat(n)) == n
  {
    if n >= 10 {
      FormatNatValue(n / 10);
      var s := FormatNat(n);
      assert s[..|s| - 1] == FormatNat(n / 10);
    }
  }

  /** `strconv.ParseInt(s, 10, 64)`: an optional sign, at least one digit, nothing else, within int64. */
  function ParseInt64(s: string): Option<Int64> {
    if |s| == 0 then None
    else
      var digits := if s[0] == '+' || s[0] == '-' then s[1..] else s;
      if |digits| == 0 || !AllDigits(digits) then None
      else
        var v: int := if s[0] == '-' then 0 - DigitsValue(digits) else DigitsValue(digits);
        if MinInt64 <= v <= MaxInt64 then Some(v) else None
  }

  /** Printing an int64 with `%d` and parsing it back gives the same number. */
  lemma ParseFormatInt(n: Int64)
    ensures ParseInt64(FormatInt(n)) == Some(n)
  {
    var m: int := n;
    if m < 0 {
      FormatNatValue(-m);
      assert ("-" + FormatNat(-m))[1..] == FormatNat(-m);
    } else {
      FormatNatValue(n);
    }
  }

  lemma FormatIntHasNo(n: int, c: char)
    requires c != '-' && !IsDigit(c)
    ensures c !in FormatInt(n)
  {
  }

  // --------------------------------------------------- fmt.Sscanf(s, "%d", &n)

  /** The scanner's space skipping: a newline before the number is an error (None). */
  function SkipBlanks(s: string): (r: Option<string>)
    ensures r.Some? ==> |r.value| <= |s| && r.value == s[|s| - |r.value|..]
    ensures r.Some? && r.value != "" ==> !IsSpace(r.value[0])
  {
    if |s| == 0 then Some(s)
    else if s[0] == '\n' then None
    else if IsSpace(s[0]) then SkipBlanks(s[1..])
    else Some(s)
  }

  /** The longest prefix of `s` made only of digits. */
  function LeadingDigits(s: string): (r: string)
    ensures |r| <= |s| && r == s[..|r|] && AllDigits(r)
    ensures |r| < |s| ==> !IsDigit(s[|r|])
  {
    if |s| > 0 && IsDigit(s[0]) then [s[0]] + LeadingDigits(s[1..]) else ""
  }

  /**
   * `fmt.Sscanf(s, "%d", &n)`: skip spaces, read an optional sign and a run of
   * digits, convert as ParseInt does, and ignore whatever follows.
   */
  function ScanInt(s: string): Option<Int64> {
    match SkipBlanks(s)
    case None => None
    case Some(t) =>
      if |t| == 0 then None
      else
        var signLen := if t[0] == '+' || t[0] == '-' then 1 else 0;
        var digits := LeadingDigits(t[signLen..]);
        if |digits| == 0 then None else ParseInt64(t[..signLen] + digits)
  }

  lemma LeadingDigitsOfAll(d: string, rest: string)
    requires AllDigits(d)
    requires rest == "" || !IsDigit(rest[0])
    ensures LeadingDigits(d + rest) == d
  {
    if |d| > 0 {
      assert (d + rest)[1..] == d[1..] + rest;
      LeadingDigitsOfAll(d[1..], rest);
    } else {
      assert d + rest == rest;
    }
  }

  /** `%d` reads back what `%d` printed, whatever non-digit text follows it. */
  lemma ScanFormatInt(n: Int64, rest: string)
    requires rest == "" || !IsDigit(rest[0])
    ensures ScanInt(FormatInt(n) + rest) == Some(n)
  {
    var f := FormatInt(n);
    var signLen := if f[0] == '-' then 1 else 0;
    assert |f| > signLen by {
      var m: int := n;
      if m < 0 { assert f == "-" + FormatNat(-m); }
    }
    assert AllDigits(f[signLen..]) by {
      forall k | 0 <= k < |f| - signLen ensures IsDigit(f[signLen..][k]) { assert f[signLen..][k] == f[signLen + k]; }
    }
    ScanSigned(f + rest, f, rest, signLen);
    ParseFormatInt(n);
  }

  /** `fmt.Sscanf` with `%d` reads an optional sign and the digits after it, and stops at the first non-digit. */
  lemma ScanSigned(s: string, f: string, rest: string, signLen: nat)
    requires s == f + rest && signLen <= 1 && signLen < |f|
    requires (signLen == 1) == (f[0] == '+' || f[0] == '-')
    requires AllDigits(f[signLen..])
    requires rest == "" || !IsDigit(rest[0])
    ensures ScanInt(s) == ParseInt64(f)
  {
    assert s[0] == f[0];
    assert !IsSpace(s[0]) by { assert IsDigit(f[signLen..][0]) || signLen == 1; }
    assert SkipBlanks(s) == Some(s);
    assert s[signLen..] == f[signLen..] + rest;
    LeadingDigitsOfAll(f[signLen..], rest);
    assert s[..signLen] + f[signLen..] == f;
  }

}
