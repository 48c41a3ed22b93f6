/** Strings and the few Ruby String operations the drive-wipe programs rely on:
    joining chunks, finding a character or a substring, Integer#to_s, String#to_f
    and String#split. Strings are `seq<char>`. */
module Text {

  datatype Option<+T> = None | Some(value: T)

  /** A value, or the error a Ruby method would have raised instead. */
  datatype Result<+T, +E> = Ok(value: T) | Err(error: E)

  /** `chunks.join("")`: the chunks one after another. */
  function Concat(chunks: seq<string>): string
  {
    if chunks == [] then "" else Concat(chunks[..|chunks| - 1]) + chunks[|chunks| - 1]
  }

  lemma {:induction false} ConcatAppend(a: seq<string>, b: seq<string>)
    ensures Concat(a + b) == Concat(a) + Concat(b)
    decreases |b|
  {
    if b == [] {
      assert a + b == a;
    } else {
      var b' := b[..|b| - 1];
      var x := b[|b| - 1];
      assert (a + b)[..|a + b| - 1] == a + b' && (a + b)[|a + b| - 1] == x;
      ConcatAppend(a, b');
      assert Concat(a + b) == (Concat(a) + Concat(b')) + x;
      assert Concat(b) == Concat(b') + x;
    }
  }

  lemma ConcatPrefix(chunks: seq<string>, i: nat)
    requires i < |chunks|
    ensures Concat(chunks[..i + 1]) == Concat(chunks[..i]) + chunks[i]
  {
    assert chunks[..i + 1][..i] == chunks[..i];
  }

  // ---------------------------------------------------------------------------
  // Searching

  /** `s.index(c)`: the first position of `c` in `s`, or nil. */
  function IndexOf(s: string, c: char): (r: Option<nat>)
    ensures r.Some? ==> r.value < |s| && s[r.value] == c && c !in s[..r.value]
    ensures r.None? ==> c !in s
  {
    if s == [] then None
    else if s[0] == c then Some(0)
    else
      match IndexOf(s[1..], c)
      case None => None
      case Some(i) => assert s[..i + 1] == [s[0]] + s[1..][..i]; Some(i + 1)
  }

  /** The first `c` is at `i` when `s[i]` is `c` and no `c` comes before it. */
  lemma IndexOfFirst(s: string, c: char, i: nat)
    requires i < |s| && s[i] == c && c !in s[..i]
    ensures IndexOf(s, c) == Some(i)
  {
    assert s[i] in s;
  }

  predicate OccursAt(s: string, t: string, j: nat)
  {
    j + |t| <= |s| && s[j..j + |t|] == t
  }

  predicate Contains(s: string, t: string)
  {
    exists j | 0 <= j <= |s| :: OccursAt(s, t, j)
  }

  /** The first position at or after `from` where `t` occurs in `s`. */
  function FindFrom(s: string, t: string, from: nat): (r: Option<nat>)
    requires from <= |s|
    ensures r.Some? ==> from <= r.value <= |s| && OccursAt(s, t, r.value)
    ensures r.Some? ==> forall k | from <= k < r.value :: !OccursAt(s, t, k)
    ensures r.None? ==> forall k | from <= k <= |s| :: !OccursAt(s, t, k)
    decreases |s| - from
  {
    if OccursAt(s, t, from) then Some(from)
    else if from == |s| then None
    else FindFrom(s, t, from + 1)
  }

  /** `t` has no border: no proper suffix of `t` is also a prefix of `t`. A separator
      with this property cannot overlap a copy of itself. */
  predicate Borderless(t: string)
  {
    forall m | 0 < m < |t| :: t[m..] != t[..|t| - m]
  }

  /** When `x` does not contain a borderless `t`, the first `t` in `x + t + rest`
      is the one right after `x`. */
  lemma FirstOccurrence(x: string, t: string, rest: string)
    requires Borderless(t) && |t| > 0 && !Contains(x, t)
    ensures FindFrom(x + t + rest, t, 0) == Some(|x|)
  {
    var s := x + t + rest;
    assert OccursAt(s, t, |x|) by { assert s[|x|..|x| + |t|] == t; }
    forall j | 0 <= j < |x| ensures !OccursAt(s, t, j) {
      if j + |t| <= |x| {
        assert s[j..j + |t|] == x[j..j + |t|];
        assert !OccursAt(x, t, j);
      } else if j + |t| <= |s| {
        var m := |x| - j;
        assert t[m..] != t[..|t| - m];
        var i :| 0 <= i < |t| - m && t[m..][i] != t[..|t| - m][i];
        assert s[j..j + |t|][m + i] == t[i];
        assert s[j..j + |t|][m + i] != t[m + i];
      }
    }
  }

  // ---------------------------------------------------------------------------
  // Digits, Integer#to_s

  predicate IsDigit(c: char) { '0' <= c <= '9' }

  predicate AllDigits(s: string) { forall i | 0 <= i < |s| :: IsDigit(s[i]) }

  function DigitChar(d: nat): (c: char)
    requires d < 10
    ensures IsDigit(c) && c as int - '0' as int == d
  {
    (d + '0' as int) as char
  }

  /** The number a string of decimal digits denotes. */
  function DigitsValue(s: string): nat
    requires AllDigits(s)
  {
    if s == [] then 0 else 10 * DigitsValue(s[..|s| - 1]) + (s[|s| - 1] as int - '0' as int)
  }

  /** `Integer#to_s` on a non-negative integer: its decimal digits, which read back
      as the same number. */
  function NatToString(n: nat): (r: string)
    ensures |r| >= 1 && AllDigits(r) && DigitsValue(r) == n
    ensures |r| == 1 || r[0] != '0'
  {
    if n < 10 then [DigitChar(n)]
    else
      var r := NatToString(n / 10) + [DigitChar(n % 10)];
      assert r[..|r| - 1] == NatToString(n / 10);
      r
  }

  predicate DigitsIn(s: string, lo: nat, hi: nat)
    requires lo <= hi <= |s|
  {
    forall k | lo <= k < hi :: IsDigit(s[k])
  }

  lemma DigitsInSlice(s: string, lo: nat, hi: nat)
    requires lo <= hi <= |s| && DigitsIn(s, lo, hi)
    ensures AllDigits(s[lo..hi])
  {
    assert forall j | 0 <= j < hi - lo :: s[lo..hi][j] == s[lo + j];
  }

  /** The length of the run of digits in `s` that starts at position `i`. */
  function DigitsFrom(s: string, i: nat): (n: nat)
    requires i <= |s|
    ensures i + n <= |s| && DigitsIn(s, i, i + n) && (i + n < |s| ==> !IsDigit(s[i + n]))
    decreases |s| - i
  {
    if i == |s| || !IsDigit(s[i]) then 0 else 1 + DigitsFrom(s, i + 1)
  }

  /** A run of digits ended by a non-digit or the end of `s` is the run `DigitsFrom`
      measures. */
  lemma DigitsFromExact(s: string, i: nat, n: nat)
    requires i + n <= |s| && DigitsIn(s, i, i + n) && (i + n < |s| ==> !IsDigit(s[i + n]))
    ensures DigitsFrom(s, i) == n
  {
  }

  // ---------------------------------------------------------------------------
  // String#to_f

  /** The value of the digits after a decimal point: `0.<digits>`. */
  function Fraction(digits: string): (r: real)
    requires AllDigits(digits)
    ensures 0.0 <= r < 1.0
  {
    if digits == [] then 0.0
    else ((digits[0] as int - '0' as int) as real + Fraction(digits[1..])) / 10.0
  }

  /** `String#to_f` on a string that starts with digits or a point: the leading
      digits, then a point and at least one digit as the fraction; whatever follows
      is ignored, and a string with neither reads as 0. */
  function ToF(s: string): (r: real)
    ensures r >= 0.0
  {
    var k := DigitsFrom(s, 0);
    DigitsInSlice(s, 0, k);
    var lead := DigitsValue(s[0..k]) as real;
    if k < |s| && s[k] == '.' && DigitsFrom(s, k + 1) > 0 then
      var e := k + 1 + DigitsFrom(s, k + 1);
      DigitsInSlice(s, k + 1, e);
      lead + Fraction(s[k + 1..e])
    else lead
  }

  /** A decimal in the plain form `<digits>.<digits>` reads back as its value. */
  lemma ToFDecimal(d1: string, d2: string, rest: string)
    requires AllDigits(d1) && AllDigits(d2) && |d2| > 0
    requires rest == [] || !IsDigit(rest[0])
    ensures ToF(d1 + "." + d2 + rest) == DigitsValue(d1) as real + Fraction(d2)
  {
    var s := d1 + "." + d2 + rest;
    var k := |d1|;
    var e := k + 1 + |d2|;
    assert s[0..k] == d1 && s[k] == '.';
    assert s[k + 1..e] == d2;
    assert e < |s| ==> s[e] == rest[0];
    DigitsAt(s, 0, d1);
    DigitsAt(s, k + 1, d2);
  }

  /** Digits `d` at `i` of `s`, followed by a non-digit or the end: the run there is `d`. */
  lemma DigitsAt(s: string, i: nat, d: string)
    requires i + |d| <= |s| && s[i..i + |d|] == d && AllDigits(d)
    requires i + |d| < |s| ==> !IsDigit(s[i + |d|])
    ensures DigitsFrom(s, i) == |d|
  {
    assert forall j | i <= j < i + |d| :: s[j] == d[j - i];
    DigitsFromExact(s, i, |d|);
  }

  // ---------------------------------------------------------------------------
  // Joining and String#split

  /** `xs.join(sep)`. */
  function Join(xs: seq<string>, sep: string): string
  {
    if xs == [] then "" else if |xs| == 1 then xs[0] else xs[0] + sep + Join(xs[1..], sep)
  }

  /** Splitting at every occurrence of `sep`, left to right, keeping empty fields. */
  function SplitAll(s: string, sep: string): (r: seq<string>)
    requires |sep| > 0
    ensures |r| >= 1
    decreases |s|
  {
    match FindFrom(s, sep, 0)
    case None => [s]
    case Some(i) => [s[..i]] + SplitAll(s[i + |sep|..], sep)
  }

  function DropTrailingEmpty(xs: seq<string>): (r: seq<string>)
    ensures r <= xs && (r == [] || r[|r| - 1] != "")
    ensures forall i | |r| <= i < |xs| :: xs[i] == ""
  {
    if xs == [] || xs[|xs| - 1] != "" then xs else DropTrailingEmpty(xs[..|xs| - 1])
  }

  /** Ruby's `String#split(sep)` with a string separator: the fields between the
      separators, with trailing empty fields removed (so `"".split(sep)` is `[]`). */
  function Split(s: string, sep: string): seq<string>
    requires |sep| > 0
  {
    DropTrailingEmpty(SplitAll(s, sep))
  }

  /** Joining fields that do not contain a borderless separator and splitting again
      gives the fields back. */
  lemma {:induction false} SplitJoin(xs: seq<string>, sep: string)
    requires |sep| > 0 && Borderless(sep) && |xs| > 0
    requires forall i | 0 <= i < |xs| :: !Contains(xs[i], sep)
    ensures SplitAll(Join(xs, sep), sep) == xs
    decreases |xs|
  {
    if |xs| == 1 {
      var s := xs[0];
      assert FindFrom(s, sep, 0).None?;
    } else {
      var s := Join(xs, sep);
      assert s == xs[0] + sep + Join(xs[1..], sep);
      FirstOccurrence(xs[0], sep, Join(xs[1..], sep));
      assert s[..|xs[0]|] == xs[0];
      assert s[|xs[0]| + |sep|..] == Join(xs[1..], sep);
      SplitJoin(xs[1..], sep);
      assert [xs[0]] + xs[1..] == xs;
    }
  }
}
