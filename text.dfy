/** Text handling the pages rely on: `str.strip()`, `str.replace(c, '')`, `in`,
    `str.split(sep)`, `str.split()[0]`, and the subset of Python's `float()` that the
    model accepts (a decimal literal with an optional sign and optional fraction). */
module Text {
  import opened Wrappers

  /** The whitespace characters `strip()` and `split()` remove (the ASCII ones). */
  predicate IsSpace(c: char) {
    c == ' ' || c == '\t' || c == '\n' || c == '\r' || c == '\U{000B}' || c == '\U{000C}'
  }

  predicate IsDigit(c: char) {
    '0' <= c <= '9'
  }

  predicate AllDigits(s: string) {
    forall i :: 0 <= i < |s| ==> IsDigit(s[i])
  }

  predicate NoSpaces(s: string) {
    forall i :: 0 <= i < |s| ==> !IsSpace(s[i])
  }

  function TrimLeft(s: string): (r: string)
    ensures |r| <= |s| && r == s[|s| - |r|..]
    ensures forall i :: 0 <= i < |s| - |r| ==> IsSpace(s[i])
    ensures r != [] ==> !IsSpace(r[0])
  {
    if s != [] && IsSpace(s[0]) then TrimLeft(s[1..]) else s
  }

  function TrimRight(s: string): (r: string)
    ensures |r| <= |s| && r == s[..|r|]
    ensures forall i :: |r| <= i < |s| ==> IsSpace(s[i])
    ensures r != [] ==> !IsSpace(r[|r| - 1])
  {
    if s != [] && IsSpace(s[|s| - 1]) then TrimRight(s[..|s| - 1]) else s
  }

  /** `k` occurs in `s` starting at index `i`. */
  predicate OccursAt(s: string, k: string, i: int) {
    0 <= i && i + |k| <= |s| && s[i..i + |k|] == k
  }

  /** `r` is the slice of `s` at index `i` and only whitespace of `s` lies around it. */
  predicate SpaceAround(s: string, r: string, i: int) {
    OccursAt(s, r, i)
    && (forall k :: 0 <= k < i ==> IsSpace(s[k]))
    && (forall k :: i + |r| <= k < |s| ==> IsSpace(s[k]))
  }

  /** Trimming both ends leaves a slice of `s` with only whitespace around it. */
  lemma TrimmedAround(s: string)
    ensures SpaceAround(s, TrimRight(TrimLeft(s)), |s| - |TrimLeft(s)|)
  {
    var left := TrimLeft(s);
    SliceAround(s, left, TrimRight(left), |s| - |left|);
  }

  /** A prefix `r` of the suffix `left` of `s` that starts at `i`, with whitespace before `i`
      and after `r` in `left`, has only whitespace around it in `s`. */
  lemma SliceAround(s: string, left: string, r: string, i: nat)
    requires i <= |s| && left == s[i..] && |r| <= |left| && r == left[..|r|]
    requires forall k :: 0 <= k < i ==> IsSpace(s[k])
    requires forall k :: |r| <= k < |left| ==> IsSpace(left[k])
    ensures SpaceAround(s, r, i)
  {
    assert s[i..i + |r|] == r;
    forall k | i + |r| <= k < |s|
      ensures IsSpace(s[k])
    {
      assert s[k] == left[k - i];
    }
  }

  /** `s.strip()`: the slice of `s` left after removing whitespace at both ends. */
  function Strip(s: string): (r: string)
    ensures exists i :: SpaceAround(s, r, i)
    ensures r != [] ==> !IsSpace(r[0]) && !IsSpace(r[|r| - 1])
  {
    TrimmedAround(s);
    TrimRight(TrimLeft(s))
  }

  /** A string without whitespace at either end is left alone by `strip()`. */
  lemma StripUnchanged(s: string)
    requires s == [] || (!IsSpace(s[0]) && !IsSpace(s[|s| - 1]))
    ensures Strip(s) == s
  {
    if s != [] {
      assert TrimLeft(s) == s;
      assert TrimRight(s) == s;
    }
  }

  /** `s.replace(c, '')`. */
  function Remove(s: string, c: char): (r: string)
    ensures forall x :: x in r <==> x in s && x != c
    ensures c !in s ==> r == s
    ensures |s| == 1 ==> r == (if s[0] == c then [] else s)
  {
    if s == [] then [] else (if s[0] == c then [] else [s[0]]) + Remove(s[1..], c)
  }

  /** Removal works piece by piece: with the one-character case above it fixes the result, order included. */
  lemma {:induction false} RemoveAppend(a: string, b: string, c: char)
    ensures Remove(a + b, c) == Remove(a, c) + Remove(b, c)
  {
    if a != [] {
      assert (a + b)[1..] == a[1..] + b;
      RemoveAppend(a[1..], b, c);
    } else {
      assert a + b == b;
    }
  }

  /** `k in s` for strings: `k` occurs in `s` as a contiguous substring. */
  predicate Contains(s: string, k: string)
    decreases |s|
  {
    k <= s || (s != [] && Contains(s[1..], k))
  }

  /** `Contains` is the existence of an occurrence. */
  lemma {:induction false} ContainsIffOccurs(s: string, k: string)
    ensures Contains(s, k) <==> exists i :: OccursAt(s, k, i)
    decreases |s|
  {
    if k <= s {
      assert OccursAt(s, k, 0);
    } else if s != [] {
      ContainsIffOccurs(s[1..], k);
      ShiftOccurrence(s, k);
    }
  }

  /** Without an occurrence at the front, the occurrences in `s` are those in `s[1..]`. */
  lemma ShiftOccurrence(s: string, k: string)
    requires s != [] && !(k <= s)
    ensures (exists i :: OccursAt(s, k, i)) <==> exists i :: OccursAt(s[1..], k, i)
  {
    forall i | OccursAt(s, k, i)
      ensures OccursAt(s[1..], k, i - 1)
    {
      assert i != 0;
      assert s[1..][i - 1..i - 1 + |k|] == s[i..i + |k|];
    }
    forall i | OccursAt(s[1..], k, i)
      ensures OccursAt(s, k, i + 1)
    {
      assert s[1..][i..i + |k|] == s[i + 1..i + 1 + |k|];
    }
  }

  function IndexOf(s: string, c: char): (i: nat)
    requires c in s
    ensures i < |s| && s[i] == c && c !in s[..i]
  {
    if s[0] == c then 0 else 1 + IndexOf(s[1..], c)
  }

  /** The inverse of `Split`: the parts glued back together with `sep`. */
  function Join(parts: seq<string>, sep: char): string
    requires |parts| >= 1
  {
    if |parts| == 1 then parts[0] else parts[0] + [sep] + Join(parts[1..], sep)
  }

  /** `s.split(sep)` for a one-character separator: the maximal separator-free pieces,
      empty pieces included, so that joining them with `sep` gives `s` back. */
  function Split(s: string, sep: char): (parts: seq<string>)
    ensures |parts| >= 1
    ensures forall p :: p in parts ==> sep !in p
    ensures Join(parts, sep) == s
    ensures sep !in s ==> parts == [s]
    decreases |s|
  {
    if sep !in s then [s]
    else
      var i := IndexOf(s, sep);
      var rest := Split(s[i + 1..], sep);
      var parts := [s[..i]] + rest;
      assert parts[1..] == rest;
      assert s == s[..i] + [sep] + s[i + 1..];
      parts
  }

  /** The leading run of non-space characters of `t`. */
  function TakeToken(t: string): (r: string)
    ensures r <= t && NoSpaces(r)
    ensures |r| < |t| ==> IsSpace(t[|r|])
  {
    if t == [] || IsSpace(t[0]) then [] else [t[0]] + TakeToken(t[1..])
  }

  /** `s.split()[0]`: the first whitespace-separated token, `None` where Python raises
      `IndexError` (a blank string). */
  function FirstToken(s: string): (r: Option<string>)
    ensures r.None? <==> forall i :: 0 <= i < |s| ==> IsSpace(s[i])
    ensures r.Some? ==> r.value != [] && NoSpaces(r.value)
                        && exists i :: OccursAt(s, r.value, i)
                                       && (forall k :: 0 <= k < i ==> IsSpace(s[k]))
                                       && (i + |r.value| < |s| ==> IsSpace(s[i + |r.value|]))
  {
    var t := TrimLeft(s);
    if t == [] then None
    else
      var tok := TakeToken(t);
      var i := |s| - |t|;
      assert s[i..i + |tok|] == t[..|tok|] == tok;
      assert OccursAt(s, tok, i);
      Some(tok)
  }

  function DigitValue(c: char): nat
    requires IsDigit(c)
  {
    c as int - '0' as int
  }

  /** The value of a string of decimal digits (0 for the empty string). */
  function NatValue(ds: string): nat
    requires AllDigits(ds)
  {
    if ds == [] then 0 else NatValue(ds[..|ds| - 1]) * 10 + DigitValue(ds[|ds| - 1])
  }

  function Pow10(n: nat): (r: nat)
    ensures r >= 1
  {
    if n == 0 then 1 else 10 * Pow10(n - 1)
  }

  /** The length of the leading run of digits of `t`. */
  function DigitRun(t: string): (n: nat)
    ensures n <= |t| && AllDigits(t[..n]) && (n < |t| ==> !IsDigit(t[n]))
  {
    if t == [] || !IsDigit(t[0]) then 0
    else
      var n := 1 + DigitRun(t[1..]);
      assert t[..n] == [t[0]] + t[1..][..n - 1];
      n
  }

  /** The unsigned literals of the model of `float()`: `Digits`, `Digits.`, `Digits.Digits`
      or `.Digits`, with at least one digit. */
  predicate IsUnsignedDecimal(t: string) {
    (t != [] && AllDigits(t))
    || exists k :: 0 <= k < |t| && t[k] == '.' && AllDigits(t[..k]) && AllDigits(t[k + 1..]) && |t| > 1
  }

  /** An unsigned literal, or one behind a single `+` or `-`. */
  predicate IsDecimal(t: string) {
    IsUnsignedDecimal(t) || (t != [] && (t[0] == '+' || t[0] == '-') && IsUnsignedDecimal(t[1..]))
  }

  function Fraction(ds: string): real
    requires AllDigits(ds)
  {
    NatValue(ds) as real / Pow10(|ds|) as real
  }

  function ParseUnsigned(t: string): (r: Option<real>)
    ensures r.Some? <==> IsUnsignedDecimal(t)
    ensures r.Some? ==> r.value >= 0.0
  {
    var n := DigitRun(t);
    assert t[..n] == t[..n];
    if n == |t| then
      assert t[..n] == t;
      assert forall k :: 0 <= k < |t| ==> t[k] != '.';
      if n > 0 then Some(NatValue(t) as real) else None
    else if t[n] == '.' && AllDigits(t[n + 1..]) && |t| > 1 then
      var frac := Fraction(t[n + 1..]);
      assert frac >= 0.0;
      assert 0 <= n < |t| && t[n] == '.' && AllDigits(t[..n]) && AllDigits(t[n + 1..]);
      Some(NatValue(t[..n]) as real + frac)
    else
      assert forall k :: 0 <= k < |t| && t[k] == '.' && AllDigits(t[..k]) ==> k == n by {
        forall k | 0 <= k < |t| && t[k] == '.' && AllDigits(t[..k])
          ensures k == n
        {
        }
      }
      None
  }

  /** The model of Python's `float(s)`: `None` where Python raises `ValueError`. */
  function ParseFloat(s: string): (r: Option<real>)
    ensures r.Some? <==> IsDecimal(Strip(s))
  {
    var t := Strip(s);
    if t != [] && (t[0] == '+' || t[0] == '-') then
      assert !IsUnsignedDecimal(t) by {
        assert !IsDigit(t[0]);
        assert forall k :: 0 <= k < |t| && AllDigits(t[..k]) ==> k == 0 || t[..k][0] == t[0];
      }
      match ParseUnsigned(t[1..])
      case Some(v) => Some(if t[0] == '-' then -v else v)
      case None => None
    else
      ParseUnsigned(t)
  }

  /** A stripped literal that does not start with a sign is read as an unsigned literal. */
  lemma ParseFloatUnsigned(t: string)
    requires Strip(t) == t && (t == [] || (t[0] != '+' && t[0] != '-'))
    ensures ParseFloat(t) == ParseUnsigned(t)
  {
  }

  /** A plain digit string parses to its decimal value. */
  lemma ParseFloatDigits(ds: string)
    requires ds != [] && AllDigits(ds)
    ensures ParseUnsigned(ds) == Some(NatValue(ds) as real)
    ensures ParseFloat(ds) == Some(NatValue(ds) as real)
  {
    StripUnchanged(ds);
    ParseFloatUnsigned(ds);
    ParseUnsignedDigits(ds);
  }

  /** An all-digit string is one digit run, so `ParseUnsigned` reads it whole. */
  lemma ParseUnsignedDigits(ds: string)
    requires ds != [] && AllDigits(ds)
    ensures ParseUnsigned(ds) == Some(NatValue(ds) as real)
  {
    DigitRunWhole(ds);
  }

  lemma {:induction false} DigitRunWhole(ds: string)
    requires AllDigits(ds)
    ensures DigitRun(ds) == |ds|
  {
    if ds != [] {
      assert AllDigits(ds[1..]);
      DigitRunWhole(ds[1..]);
    }
  }

  /** A minus sign in front of an unsigned literal negates its value. */
  lemma ParseFloatNegative(t: string)
    requires IsUnsignedDecimal(t) && NoSpaces(t)
    ensures ParseFloat("-" + t) == Some(-ParseUnsigned(t).value)
  {
    var s := "-" + t;
    assert s[0] == '-' && s[1..] == t;
    assert t != [];
    assert !IsSpace(s[|s| - 1]) by {
      assert s[|s| - 1] == t[|t| - 1];
    }
    StripUnchanged(s);
    var u := ParseUnsigned(t);
    assert u.Some?;
    assert ParseFloat(s) == Some(-u.value);
  }

  /** What reading a parameter text field yields. */
  datatype FieldRead = Blank | Number(value: real) | Malformed

  /** `float(text) if text else None` (or `float(text.split()[0]) if text else None` when
      `firstToken`): an empty field is `Blank`; a failed parse is `Malformed` (Python raises
      `ValueError`, or `IndexError` for a field of only whitespace). */
  function ReadField(text: string, firstToken: bool): (r: FieldRead)
    ensures r.Blank? <==> text == ""
    ensures !firstToken ==> (r.Number? <==> text != "" && ParseFloat(text).Some?)
    ensures !firstToken && r.Number? ==> r.value == ParseFloat(text).value
    ensures firstToken && text != "" ==>
      (r.Number? <==> FirstToken(text).Some? && ParseFloat(FirstToken(text).value).Some?)
    ensures firstToken && r.Number? ==> r.value == ParseFloat(FirstToken(text).value).value
  {
    if text == "" then Blank
    else
      var tok := if firstToken then FirstToken(text) else Some(text);
      match tok
      case None => Malformed
      case Some(t) =>
        match ParseFloat(t)
        case Some(v) => Number(v)
        case None => Malformed
  }
}

/** Degrees-minutes-seconds arithmetic shared by the pages. */
module Angles {

  function Abs(x: real): real {
    if x < 0.0 then -x else x
  }

  /** `sign * (abs(d) + m/60 + s/3600)` with `sign = -1 if d < 0 else 1`. */
  function DmsDegrees(d: real, m: real, s: real): (r: real)
    ensures m >= 0.0 && s >= 0.0 ==> Abs(r) == Abs(d) + m / 60.0 + s / 3600.0
    ensures m >= 0.0 && s >= 0.0 && (d != 0.0 || m > 0.0 || s > 0.0) ==> (r < 0.0 <==> d < 0.0)
  {
    var magnitude := Abs(d) + m / 60.0 + s / 3600.0;
    if d < 0.0 then -magnitude else magnitude
  }

  /** With non-negative degrees the sign is +1 and the conversion is the plain sum. */
  lemma DmsNonNegative(d: real, m: real, s: real)
    requires d >= 0.0
    ensures DmsDegrees(d, m, s) == d + m / 60.0 + s / 3600.0
  {
  }

  /** Whole degrees are unchanged by the conversion. */
  lemma DmsWholeDegrees(d: real)
    ensures DmsDegrees(d, 0.0, 0.0) == d
  {
  }
}
