/** The Python string primitives the label cleaners rely on: `str.isdigit` for
    the regex classes `\d`/`\D`, `str.strip`, `str.find`, `str.split`,
    `str.join`, `str.replace(p, "")`, `int(digits)` and the `{n:02d}` format. */
module PyStr {
  import opened Basics

  /** `\d` (ASCII decimal digits). */
  predicate IsDigit(c: char)
  {
    '0' <= c <= '9'
  }

  /** The characters for which Python's `str.isspace()` holds, by code point;
      `str.strip()` removes these. */
  predicate IsSpace(c: char)
  {
    var n := c as int;
    || 9 <= n <= 13 || 28 <= n <= 32 || n == 0x85 || n == 0xa0 || n == 0x1680
    || 0x2000 <= n <= 0x200a || n == 0x2028 || n == 0x2029 || n == 0x202f || n == 0x205f || n == 0x3000
  }

  predicate AllDigits(s: string)
  {
    forall k :: 0 <= k < |s| ==> IsDigit(s[k])
  }

  predicate NoDigits(s: string)
  {
    forall k :: 0 <= k < |s| ==> !IsDigit(s[k])
  }

  predicate AllSpace(s: string)
  {
    forall k :: 0 <= k < |s| ==> IsSpace(s[k])
  }

  // ---------------------------------------------------------------- strip

  /** How many whitespace characters `s` starts with. */
  function LeadingSpaces(s: string): (n: nat)
    ensures n <= |s|
    ensures forall k :: 0 <= k < n ==> IsSpace(s[k])
    ensures n < |s| ==> !IsSpace(s[n])
  {
    if |s| > 0 && IsSpace(s[0]) then 1 + LeadingSpaces(s[1..]) else 0
  }

  /** How many whitespace characters `s` ends with. */
  function TrailingSpaces(s: string): (n: nat)
    ensures n <= |s|
    ensures forall k :: |s| - n <= k < |s| ==> IsSpace(s[k])
    ensures n < |s| ==> !IsSpace(s[|s| - n - 1])
  {
    if |s| > 0 && IsSpace(s[|s| - 1]) then 1 + TrailingSpaces(s[..|s| - 1]) else 0
  }

  /** `s.strip()`. */
  function Strip(s: string): string
  {
    var t := s[LeadingSpaces(s)..];
    t[..|t| - TrailingSpaces(t)]
  }

  /** `s.strip()` is the infix of `s` left after cutting whitespace off both
      ends: what is cut is whitespace and what is left neither starts nor ends
      with whitespace. */
  lemma StripIsTrimmedInfix(s: string)
    ensures var r := Strip(s);
            && (exists i :: 0 <= i <= |s| - |r| && r == s[i..i + |r|] && AllSpace(s[..i]) && AllSpace(s[i + |r|..]))
            && (r == [] || (!IsSpace(r[0]) && !IsSpace(r[|r| - 1])))
  {
    var i := LeadingSpaces(s);
    var t := s[i..];
    var r := Strip(s);
    assert r == s[i..i + |r|];
    assert AllSpace(s[..i]) by {
      forall k | 0 <= k < i ensures IsSpace(s[..i][k]) { assert s[..i][k] == s[k]; }
    }
    var u := s[i + |r|..];
    assert AllSpace(u) by {
      forall k | 0 <= k < |u| ensures IsSpace(u[k]) {
        assert u[k] == t[|r| + k];
      }
    }
  }

  /** Stripping a string twice is the same as stripping it once. */
  lemma StripIdempotent(s: string)
    ensures Strip(Strip(s)) == Strip(s)
  {
    var t := Strip(s);
    StripIsTrimmedInfix(s);
    assert LeadingSpaces(t) == 0;
    assert TrailingSpaces(t) == 0;
  }

  /** A string that neither starts nor ends with whitespace is its own strip. */
  lemma StripUnchanged(s: string)
    requires s == [] || (!IsSpace(s[0]) && !IsSpace(s[|s| - 1]))
    ensures Strip(s) == s
  {
    assert LeadingSpaces(s) == 0;
    assert s[0..] == s;
    assert TrailingSpaces(s) == 0;
  }

  lemma StripKeepsNoDigits(s: string)
    requires NoDigits(s)
    ensures NoDigits(Strip(s))
  {
    var i := LeadingSpaces(s);
    var t := Strip(s);
    forall k | 0 <= k < |t|
      ensures !IsDigit(t[k])
    {
      assert t[k] == s[i + k];
    }
  }

  // ---------------------------------------------------------------- find

  predicate OccursAt(s: string, pat: string, i: int)
  {
    0 <= i && i + |pat| <= |s| && s[i..i + |pat|] == pat
  }

  /** `s.find(pat, from)`: the first index at or after `from` where `pat` occurs. */
  function FindFrom(s: string, pat: string, from: nat): (r: Option<nat>)
    requires |pat| > 0
    ensures r.Some? ==> from <= r.value && OccursAt(s, pat, r.value)
    ensures r.Some? ==> forall k :: from <= k < r.value ==> !OccursAt(s, pat, k)
    ensures r.None? ==> forall k :: from <= k ==> !OccursAt(s, pat, k)
    decreases |s| - from
  {
    if from + |pat| > |s| then None
    else if s[from..from + |pat|] == pat then Some(from)
    else FindFrom(s, pat, from + 1)
  }

  function Find(s: string, pat: string): (r: Option<nat>)
    requires |pat| > 0
  {
    FindFrom(s, pat, 0)
  }

  // ---------------------------------------------------------------- split / join

  /** `s.split(d)`: the pieces between the left-to-right, non-overlapping occurrences of `d`. */
  function Split(s: string, d: string): (parts: seq<string>)
    requires |d| > 0
    ensures |parts| >= 1
    decreases |s|
  {
    match Find(s, d)
    case None => [s]
    case Some(j) => [s[..j]] + Split(s[j + |d|..], d)
  }

  /** No piece that `split` returns contains the delimiter. */
  lemma {:induction false} SplitPiecesAvoidDelimiter(s: string, d: string)
    requires |d| > 0
    ensures forall i, k :: 0 <= i < |Split(s, d)| ==> !OccursAt(Split(s, d)[i], d, k)
    decreases |s|
  {
    match Find(s, d)
    case None =>
    case Some(j) =>
      var head := s[..j];
      forall k | OccursAt(head, d, k)
        ensures false
      {
        assert s[k..k + |d|] == head[k..k + |d|];
        assert OccursAt(s, d, k);
      }
      SplitPiecesAvoidDelimiter(s[j + |d|..], d);
  }

  /** `sep.join(parts)`. */
  function Join(sep: string, parts: seq<string>): string
  {
    if |parts| == 0 then ""
    else if |parts| == 1 then parts[0]
    else parts[0] + sep + Join(sep, parts[1..])
  }

  /** Splitting on `d` and joining with `d` gives back the original string. */
  lemma {:induction false} JoinSplit(s: string, d: string)
    requires |d| > 0
    ensures Join(d, Split(s, d)) == s
    decreases |s|
  {
    var f := Find(s, d);
    if f.Some? {
      var j := f.value;
      var rest := s[j + |d|..];
      var tail := Split(rest, d);
      JoinSplit(rest, d);
      assert Split(s, d) == [s[..j]] + tail;
      assert Join(d, [s[..j]] + tail) == s[..j] + d + Join(d, tail);
      assert s[j..j + |d|] == d;
      SliceThree(s, j, j + |d|);
    }
  }

  /** Cutting a string at two positions and gluing the three pieces gives it back. */
  lemma SliceThree(s: string, i: nat, j: nat)
    requires i <= j <= |s|
    ensures s == s[..i] + s[i..j] + s[j..]
  {
  }

  /** `d.join(s.split(d)[1:])`: everything after the first `d`, or "" when `s` has none. */
  function AfterFirst(s: string, d: string): string
    requires |d| > 0
  {
    Join(d, Split(s, d)[1..])
  }

  lemma {:induction false} AfterFirstDropsThroughDelimiter(s: string, d: string)
    requires |d| > 0
    ensures Find(s, d).None? ==> AfterFirst(s, d) == ""
    ensures Find(s, d).Some? ==> AfterFirst(s, d) == s[Find(s, d).value + |d|..]
  {
    var f := Find(s, d);
    if f.None? {
      assert Split(s, d) == [s];
      assert Split(s, d)[1..] == [];
    } else {
      var rest := s[f.value + |d|..];
      var tail := Split(rest, d);
      JoinSplit(rest, d);
      assert Split(s, d) == [s[..f.value]] + tail;
      assert Split(s, d)[1..] == tail;
    }
  }

  // ---------------------------------------------------------------- replace

  /** `s.replace(p, "")`, scanning left to right as CPython does. */
  function RemoveAll(s: string, p: string): string
    requires |p| > 0
    decreases |s|
  {
    if |s| < |p| then s
    else if s[..|p|] == p then RemoveAll(s[|p|..], p)
    else [s[0]] + RemoveAll(s[1..], p)
  }

  /** Scanning over a prefix in which `p` starts nowhere copies that prefix unchanged. */
  lemma {:induction false} RemoveAllSkips(s: string, p: string, j: nat)
    requires |p| > 0 && j <= |s|
    requires forall k :: 0 <= k < j ==> !OccursAt(s, p, k)
    requires OccursAt(s, p, j) || forall k :: j <= k ==> !OccursAt(s, p, k)
    ensures RemoveAll(s, p) == s[..j] + RemoveAll(s[j..], p)
    decreases j
  {
    if j == 0 {
      assert s[j..] == s;
    } else if |s| < |p| {
      assert RemoveAll(s[j..], p) == s[j..];
      assert s == s[..j] + s[j..];
    } else {
      var t := s[1..];
      ShiftNoOccurrence(s, p, j);
      RemoveAllSkips(t, p, j - 1);
      RemoveAllKeepsFirst(s, p);
      SplitAfterFirst(s, j);
    }
  }

  /** Where `p` does not start at position 0, the first character is copied. */
  lemma RemoveAllKeepsFirst(s: string, p: string)
    requires |p| > 0 && |s| >= |p| && !OccursAt(s, p, 0)
    ensures RemoveAll(s, p) == [s[0]] + RemoveAll(s[1..], p)
  {
  }

  lemma SplitAfterFirst(s: string, j: nat)
    requires 0 < j <= |s|
    ensures s[..j] == [s[0]] + s[1..][..j - 1] && s[1..][j - 1..] == s[j..]
  {
  }

  /** The hypotheses of `RemoveAllSkips` carry over from `s` at `j` to `s[1..]` at `j - 1`. */
  lemma ShiftNoOccurrence(s: string, p: string, j: nat)
    requires 0 < j <= |s|
    requires forall k :: 0 <= k < j ==> !OccursAt(s, p, k)
    requires OccursAt(s, p, j) || forall k :: j <= k ==> !OccursAt(s, p, k)
    ensures forall k :: 0 <= k < j - 1 ==> !OccursAt(s[1..], p, k)
    ensures OccursAt(s[1..], p, j - 1) || forall k :: j - 1 <= k ==> !OccursAt(s[1..], p, k)
  {
    forall k: nat
      ensures OccursAt(s[1..], p, k) <==> OccursAt(s, p, k + 1)
    {
      ShiftOccurrence(s, p, k);
    }
  }

  /** An occurrence in `s[1..]` is an occurrence in `s` one place later. */
  lemma ShiftOccurrence(s: string, p: string, k: nat)
    requires |s| > 0
    ensures OccursAt(s[1..], p, k) <==> OccursAt(s, p, k + 1)
  {
    if k + |p| <= |s| - 1 {
      assert s[1..][k..k + |p|] == s[k + 1..k + 1 + |p|];
    }
  }

  /** `s.replace(p, "")` equals `"".join(s.split(p))`: exactly the occurrences that
      `split` finds are deleted, and every piece between them is kept in order. */
  lemma {:induction false} RemoveAllIsJoinOfSplit(s: string, p: string)
    requires |p| > 0
    ensures RemoveAll(s, p) == Join("", Split(s, p))
    decreases |s|
  {
    match Find(s, p)
    case None =>
      RemoveAllWithout(s, p);
      assert Split(s, p) == [s];
    case Some(j) =>
      var rest := s[j + |p|..];
      RemoveAllIsJoinOfSplit(rest, p);
      RemoveAllAtFirst(s, p, j);
      var tail := Split(rest, p);
      assert Split(s, p) == [s[..j]] + tail;
      JoinCons("", s[..j], tail);
      assert s[..j] + "" == s[..j];
  }

  /** With no occurrence of `p`, `replace` copies the whole string. */
  lemma RemoveAllWithout(s: string, p: string)
    requires |p| > 0 && Find(s, p).None?
    ensures RemoveAll(s, p) == s
  {
    RemoveAllSkips(s, p, |s|);
    assert s[|s|..] == [];
    assert s[..|s|] == s;
  }

  /** Up to the first occurrence of `p` the string is copied, the occurrence is
      dropped, and the scan resumes right after it. */
  lemma RemoveAllAtFirst(s: string, p: string, j: nat)
    requires |p| > 0 && Find(s, p) == Some(j)
    ensures RemoveAll(s, p) == s[..j] + RemoveAll(s[j + |p|..], p)
  {
    RemoveAllSkips(s, p, j);
    assert s[j..][..|p|] == p;
    assert s[j..][|p|..] == s[j + |p|..];
  }

  lemma JoinCons(sep: string, x: string, tail: seq<string>)
    requires |tail| > 0
    ensures Join(sep, [x] + tail) == x + sep + Join(sep, tail)
  {
    assert ([x] + tail)[1..] == tail;
  }

  // ---------------------------------------------------------------- integers

  function DigitValue(c: char): nat
    requires IsDigit(c)
  {
    (c as int) - ('0' as int)
  }

  function DigitChar(d: nat): (c: char)
    requires d < 10
    ensures IsDigit(c) && DigitValue(c) == d
  {
    ('0' as int + d) as char
  }

  /** `int(ds)` for a run of decimal digits. */
  function DigitsValue(ds: string): nat
    requires AllDigits(ds)
  {
    if |ds| == 0 then 0 else DigitsValue(ds[..|ds| - 1]) * 10 + DigitValue(ds[|ds| - 1])
  }

  /** `str(n)`: decimal digits without leading zeros. */
  function Decimal(n: nat): (r: string)
    ensures |r| >= 1 && AllDigits(r)
    ensures DigitsValue(r) == n
    ensures r[0] == '0' ==> r == "0"
    ensures n >= 10 ==> |r| >= 2
  {
    if n < 10 then [DigitChar(n)]
    else
      var r := Decimal(n / 10) + [DigitChar(n % 10)];
      assert r[..|r| - 1] == Decimal(n / 10);
      r
  }

  /** `f"{n:02d}"`: the decimal digits of `n`, zero-padded to at least two. */
  function Pad2(n: nat): (r: string)
    ensures |r| >= 2 && AllDigits(r)
    ensures DigitsValue(r) == n
    ensures |r| > 2 ==> r[0] != '0'
  {
    if n < 10 then
      var r := "0" + Decimal(n);
      assert r[..1] == "0";
      r
    else
      Decimal(n)
  }
}
