/**
 * The JavaScript string operations the dumper relies on, over `string`
 * (`seq<char>`): `repeat`, decimal number text, `indexOf`, `slice`,
 * `split`, `trim` and the UTF-16 `length`.
 */
module Strings {

  import opened Wrappers

  /** `s.repeat(k)`. */
  function Repeat(s: string, k: nat): (r: string)
    ensures |r| == k * |s|
  {
    if k == 0 then "" else s + Repeat(s, k - 1)
  }

  /** Repeating a + b times is repeating a times, then b times. */
  lemma {:induction false} RepeatAdd(s: string, a: nat, b: nat)
    ensures Repeat(s, a + b) == Repeat(s, a) + Repeat(s, b)
  {
    if a > 0 {
      RepeatAdd(s, a - 1, b);
      assert Repeat(s, a + b) == s + Repeat(s, (a - 1) + b);
    }
  }

  /** `s.repeat(k)` is k copies of s: the i-th block of |s| characters is s. */
  lemma RepeatCopies(s: string, k: nat)
    ensures forall i | 0 <= i < k :: Repeat(s, k)[i * |s|..(i + 1) * |s|] == s
  {
    forall i | 0 <= i < k {
      RepeatBlock(s, k, i);
    }
  }

  lemma RepeatBlock(s: string, k: nat, i: nat)
    requires i < k
    ensures 0 <= i * |s| && (i + 1) * |s| == i * |s| + |s| <= |Repeat(s, k)|
    ensures Repeat(s, k)[i * |s|..(i + 1) * |s|] == s
  {
    RepeatAdd(s, i, k - i);
    var a, c := Repeat(s, i), Repeat(s, k - i - 1);
    assert Repeat(s, k - i) == s + c;
    assert |a| == i * |s|;
    assert (i + 1) * |s| == |a| + |s|;
    assert Repeat(s, k) == a + s + c;
    MiddleSlice(a, s, c);
  }

  /** The middle part of a three-part concatenation, by position. */
  lemma MiddleSlice(a: string, b: string, c: string)
    ensures (a + b + c)[|a|..|a| + |b|] == b
  {
  }

  /** The concatenation of all parts, in order. */
  function Concat(parts: seq<string>): string
  {
    if |parts| == 0 then "" else parts[0] + Concat(parts[1..])
  }

  // ---------------------------------------------------------------------
  // Decimal text of integers (`${n}` for a number or bigint that is an
  // integer) and its inverse
  // ---------------------------------------------------------------------

  predicate IsDigit(c: char)
  {
    '0' <= c <= '9'
  }

  predicate AllDigits(s: string)
  {
    forall i | 0 <= i < |s| :: IsDigit(s[i])
  }

  function DigitValue(c: char): nat
    requires IsDigit(c)
  {
    (c as int) - ('0' as int)
  }

  function DigitChar(n: nat): (c: char)
    requires n < 10
    ensures IsDigit(c) && DigitValue(c) == n
  {
    (('0' as int) + n) as char
  }

  /** The value of a run of decimal digits, most significant first. */
  function DigitsValue(s: string): nat
    requires AllDigits(s)
  {
    if |s| == 0 then 0 else DigitsValue(s[..|s| - 1]) * 10 + DigitValue(s[|s| - 1])
  }

  /** Decimal text of a natural number, without leading zeros. */
  function NatText(n: nat): (r: string)
    ensures |r| >= 1 && AllDigits(r)
    ensures |r| > 1 ==> r[0] != '0'
  {
    if n < 10 then [DigitChar(n)] else NatText(n / 10) + [DigitChar(n % 10)]
  }

  /** Reading the decimal text back gives the number. */
  lemma {:induction false} NatTextRoundTrip(n: nat)
    ensures DigitsValue(NatText(n)) == n
  {
    if n >= 10 {
      var t := NatText(n);
      assert t[..|t| - 1] == NatText(n / 10);
      NatTextRoundTrip(n / 10);
    }
  }

  /** Decimal text of an integer, with a leading `-` when negative. */
  function IntText(n: int): (r: string)
    ensures |r| >= 1
    ensures r[0] == '-' <==> n < 0
    ensures n >= 0 ==> AllDigits(r)
    ensures n < 0 ==> |r| >= 2 && AllDigits(r[1..])
    ensures |r| > 1 && r[0] != '-' ==> r[0] != '0'
    ensures n < 0 ==> r[1] != '0'
  {
    if n < 0 then
      var d := NatText(-n);
      assert ("-" + d)[1..] == d;
      PositiveLeads(-n);
      "-" + d
    else NatText(n)
  }

  /** The text of a positive number does not start with `0`. */
  lemma PositiveLeads(n: nat)
    requires n > 0
    ensures NatText(n)[0] != '0'
  {
    if n < 10 {
      assert DigitValue(NatText(n)[0]) == n;
    }
  }

  /** Parses what IntText produces: an optional `-` and at least one digit. */
  function ReadInt(s: string): Option<int>
  {
    if |s| > 0 && s[0] == '-' then
      if |s| > 1 && AllDigits(s[1..]) then Some(0 - DigitsValue(s[1..]) as int) else None
    else if |s| > 0 && AllDigits(s) then Some(DigitsValue(s))
    else None
  }

  lemma IntTextRoundTrip(n: int)
    ensures ReadInt(IntText(n)) == Some(n)
  {
    if n < 0 {
      NegativeRoundTrip(-n);
    } else {
      NaturalRoundTrip(n);
    }
  }

  lemma NegativeRoundTrip(m: nat)
    requires m > 0
    ensures ReadInt("-" + NatText(m)) == Some(0 - m)
  {
    var d := NatText(m);
    assert ("-" + d)[1..] == d;
    NatTextRoundTrip(m);
  }

  lemma NaturalRoundTrip(n: nat)
    ensures ReadInt(NatText(n)) == Some(n)
  {
    var d := NatText(n);
    assert IsDigit(d[0]);
    NatTextRoundTrip(n);
  }

  // ---------------------------------------------------------------------
  // Searching and slicing
  // ---------------------------------------------------------------------

  /** `s.indexOf(c)` for a one-character needle: the first position, or -1. */
  function IndexOf(s: string, c: char): (r: int)
    ensures -1 <= r < |s|
    ensures r == -1 <==> c !in s
    ensures r >= 0 ==> s[r] == c && c !in s[..r]
  {
    if |s| == 0 then -1
    else if s[0] == c then 0
    else
      var k := IndexOf(s[1..], c);
      if k == -1 then -1
      else
        assert s[..k + 1] == [s[0]] + s[1..][..k];
        k + 1
  }

  /** A position holding `c` with no `c` before it is what indexOf returns. */
  lemma {:induction false} IndexOfAt(s: string, c: char, i: nat)
    requires i < |s| && s[i] == c && c !in s[..i]
    ensures IndexOf(s, c) == i
  {
    if i > 0 {
      assert s[0] in s[..i];
      assert s[1..][..i - 1] == s[1..i];
      assert forall x | x in s[1..i] :: x in s[..i];
      IndexOfAt(s[1..], c, i - 1);
    }
  }

  predicate OccursAt(s: string, pat: string, i: nat)
  {
    i + |pat| <= |s| && s[i..i + |pat|] == pat
  }

  /** First position at or after `i` where `pat` occurs, or -1. */
  function FindFrom(s: string, pat: string, i: nat): (r: int)
    requires i <= |s|
    ensures r == -1 || (i <= r && OccursAt(s, pat, r))
    ensures forall j: nat | i <= j && (r == -1 || j < r) :: !OccursAt(s, pat, j)
    decreases |s| - i
  {
    if OccursAt(s, pat, i) then i
    else if i == |s| then -1
    else FindFrom(s, pat, i + 1)
  }

  /** `s.indexOf(pat)` for a multi-character needle. */
  function Find(s: string, pat: string): (r: int)
    ensures r == -1 || (r >= 0 && OccursAt(s, pat, r))
    ensures forall j: nat | r == -1 || j < r :: !OccursAt(s, pat, j)
  {
    FindFrom(s, pat, 0)
  }

  /** How `slice` turns an argument into a position: negative counts from the end. */
  function Clamp(k: int, len: nat): (r: nat)
    ensures r <= len
    ensures 0 <= k <= len ==> r == k
    ensures -(len as int) <= k < 0 ==> r == len + k
  {
    if k < 0 then (if len + k < 0 then 0 else len + k)
    else if k > len then len
    else k
  }

  /** `s.slice(start, end)`. */
  function Slice(s: string, start: int, end: int): (r: string)
    ensures 0 <= start <= end <= |s| ==> r == s[start..end]
    ensures 0 <= end <= start ==> r == ""
    ensures -|s| <= end < 0 && 0 <= start <= |s| + end ==> r == s[start..|s| + end]
  {
    var a := Clamp(start, |s|);
    var b := Clamp(end, |s|);
    if a < b then s[a..b] else ""
  }

  // ---------------------------------------------------------------------
  // split and its inverse
  // ---------------------------------------------------------------------

  /** `parts.join(c)`. */
  function Join(parts: seq<string>, c: char): string
  {
    if |parts| == 0 then ""
    else if |parts| == 1 then parts[0]
    else parts[0] + [c] + Join(parts[1..], c)
  }

  /** Joining a part in front of at least one more part puts a separator between. */
  lemma JoinCons(x: string, rest: seq<string>, c: char)
    requires |rest| >= 1
    ensures Join([x] + rest, c) == x + [c] + Join(rest, c)
  {
    assert ([x] + rest)[1..] == rest;
  }

  /** No part holds the separator. */
  predicate Separated(parts: seq<string>, c: char)
  {
    forall k | 0 <= k < |parts| :: c !in parts[k]
  }

  /** `s.split(c)`: never empty, no part holds `c`, and joining gives `s` back. */
  function Split(s: string, c: char): (r: seq<string>)
    ensures |r| >= 1 && Separated(r, c)
    ensures Join(r, c) == s
    decreases |s|
  {
    var i := IndexOf(s, c);
    if i == -1 then [s]
    else
      var head, rest := s[..i], Split(s[i + 1..], c);
      JoinCons(head, rest, c);
      assert s == head + [c] + s[i + 1..];
      assert forall k | 1 <= k < |rest| + 1 :: ([head] + rest)[k] == rest[k - 1];
      [head] + rest
  }

  /** The first part of a split is the text before the first separator. */
  lemma SplitFirst(s: string, c: char)
    ensures IndexOf(s, c) == -1 ==> Split(s, c) == [s]
    ensures IndexOf(s, c) >= 0 ==> Split(s, c)[0] == s[..IndexOf(s, c)]
  {
  }

  /** Splitting a join of separator-free parts gives the parts back. */
  lemma {:induction false} SplitJoin(parts: seq<string>, c: char)
    requires |parts| >= 1
    requires Separated(parts, c)
    ensures Split(Join(parts, c), c) == parts
  {
    var s := Join(parts, c);
    if |parts| == 1 {
      assert IndexOf(s, c) == -1;
    } else {
      var i := |parts[0]|;
      JoinParts(parts, c);
      assert Separated(parts[1..], c);
      SplitJoin(parts[1..], c);
      SplitAt(s, c, i);
      assert parts == [parts[0]] + parts[1..];
    }
  }

  /** Where the first separator of a join of separator-free parts sits. */
  lemma JoinParts(parts: seq<string>, c: char)
    requires |parts| >= 2 && Separated(parts, c)
    ensures var s, i := Join(parts, c), |parts[0]|;
      i < |s| && IndexOf(s, c) == i && s[..i] == parts[0] && s[i + 1..] == Join(parts[1..], c)
  {
    var s := Join(parts, c);
    var i := |parts[0]|;
    assert s == parts[0] + [c] + Join(parts[1..], c);
    assert s[..i] == parts[0];
    assert s[i + 1..] == Join(parts[1..], c);
    IndexOfAt(s, c, i);
  }

  /** Split at a known first separator. */
  lemma SplitAt(s: string, c: char, i: nat)
    requires i < |s| && IndexOf(s, c) == i
    ensures Split(s, c) == [s[..i]] + Split(s[i + 1..], c)
  {
  }

  // ---------------------------------------------------------------------
  // trim
  // ---------------------------------------------------------------------

  /** The characters `trim` removes: WhiteSpace and LineTerminator of ECMA-262. */
  predicate IsSpace(c: char)
  {
    var n := c as int;
    n == 0x9 || n == 0xA || n == 0xB || n == 0xC || n == 0xD || n == 0x20
    || n == 0xA0 || n == 0x1680 || (0x2000 <= n <= 0x200A) || n == 0x2028
    || n == 0x2029 || n == 0x202F || n == 0x205F || n == 0x3000 || n == 0xFEFF
  }

  predicate AllSpace(s: string)
  {
    forall i | 0 <= i < |s| :: IsSpace(s[i])
  }

  /** Drops leading white space. */
  function TrimStart(s: string): (r: string)
    ensures |r| <= |s| && r == s[|s| - |r|..]
    ensures AllSpace(s[..|s| - |r|])
    ensures r == "" || !IsSpace(r[0])
  {
    if |s| > 0 && IsSpace(s[0]) then
      var r := TrimStart(s[1..]);
      var k := |s| - |r|;
      assert forall i | 1 <= i < k :: s[..k][i] == s[1..][..k - 1][i - 1];
      r
    else s
  }

  /** Drops trailing white space. */
  function TrimEnd(s: string): (r: string)
    ensures |r| <= |s| && r == s[..|r|]
    ensures AllSpace(s[|r|..])
    ensures r == "" || !IsSpace(r[|r| - 1])
  {
    if |s| > 0 && IsSpace(s[|s| - 1]) then
      var r := TrimEnd(s[..|s| - 1]);
      assert s[|r|..] == s[..|s| - 1][|r|..] + [s[|s| - 1]];
      r
    else s
  }

  /** `s.trim()`: no white space left at either end. */
  function Trim(s: string): (r: string)
    ensures r == "" || (!IsSpace(r[0]) && !IsSpace(r[|r| - 1]))
  {
    var t := TrimStart(s);
    var r := TrimEnd(t);
    assert r == "" || r[0] == t[0];
    r
  }

  /** r is a piece of s with only white space around it. */
  predicate SpaceAround(s: string, r: string)
  {
    exists a :: 0 <= a <= |s| - |r| && s[a..a + |r|] == r && AllSpace(s[..a]) && AllSpace(s[a + |r|..])
  }

  /** The trim is a piece of `s` with only white space around it. */
  lemma TrimSlice(s: string)
    ensures SpaceAround(s, Trim(s))
  {
    var t, r := TrimStart(s), Trim(s);
    assert r == TrimEnd(t);
    TrimBetween(s, t, r);
  }

  lemma TrimBetween(s: string, t: string, r: string)
    requires |t| <= |s| && t == s[|s| - |t|..] && AllSpace(s[..|s| - |t|])
    requires |r| <= |t| && r == t[..|r|] && AllSpace(t[|r|..])
    ensures SpaceAround(s, r)
  {
    var a := |s| - |t|;
    assert s[a..a + |r|] == r by {
      assert t == s[a..] && r == t[..|r|];
    }
    assert AllSpace(s[a + |r|..]) by {
      assert s[a + |r|..] == t[|r|..];
    }
    assert 0 <= a <= |s| - |r| && s[a..a + |r|] == r && AllSpace(s[..a]) && AllSpace(s[a + |r|..]);
  }

  /** A word with no white space at either end is its own trim. */
  lemma TrimWord(w: string)
    requires |w| > 0 && !IsSpace(w[0]) && !IsSpace(w[|w| - 1])
    ensures Trim(w) == w
  {
  }

  /** One trailing space goes, the word stays. */
  lemma TrimTrailingSpace(w: string)
    requires |w| > 0 && !IsSpace(w[0]) && !IsSpace(w[|w| - 1])
    ensures Trim(w + " ") == w
  {
    var s := w + " ";
    assert s[0] == w[0];
    assert TrimStart(s) == s;
    assert IsSpace(s[|s| - 1]);
    assert s[..|s| - 1] == w;
    assert TrimEnd(s) == TrimEnd(w);
  }

  /** One space on each side goes, the word stays. */
  lemma TrimSpaced(w: string)
    requires |w| > 0 && !IsSpace(w[0]) && !IsSpace(w[|w| - 1])
    ensures Trim(" " + w + " ") == w
  {
    var s := " " + w + " ";
    assert s[1..] == w + " ";
    assert TrimStart(s) == TrimStart(w + " ");
    assert (w + " ")[0] == w[0];
    assert TrimStart(w + " ") == w + " ";
    TrimTrailingSpace(w);
  }

  lemma TrimAllSpace(s: string)
    requires AllSpace(s)
    ensures Trim(s) == ""
  {
  }

  /** Trimming twice is trimming once. */
  lemma TrimIdempotent(s: string)
    ensures Trim(Trim(s)) == Trim(s)
  {
    var r := Trim(s);
    assert r == "" || (!IsSpace(r[0]) && !IsSpace(r[|r| - 1]));
  }

  // ---------------------------------------------------------------------
  // String length in UTF-16 code units
  // ---------------------------------------------------------------------

  /** Code units of one character: two for those outside the Basic Multilingual Plane. */
  function Units(c: char): nat
  {
    if c as int >= 0x1_0000 then 2 else 1
  }

  /** `s.length`: the number of UTF-16 code units. */
  function Utf16Length(s: string): (r: nat)
    ensures |s| <= r <= 2 * |s|
  {
    if |s| == 0 then 0 else Units(s[0]) + Utf16Length(s[1..])
  }

  /** The shortest prefix of `s` that holds `n` code units (or all of `s`). */
  function TakeUnits(s: string, n: nat): string
  {
    if n == 0 || |s| == 0 then ""
    else [s[0]] + TakeUnits(s[1..], if Units(s[0]) >= n then 0 else n - Units(s[0]))
  }

  /** A string's own length in code units delimits it inside any longer text. */
  lemma {:induction false} TakeUnitsOfLength(s: string, t: string)
    ensures TakeUnits(s + t, Utf16Length(s)) == s
  {
    if |s| > 0 {
      var n := Utf16Length(s);
      assert (s + t)[0] == s[0];
      assert (s + t)[1..] == s[1..] + t;
      TakeUnitsOfLength(s[1..], t);
      assert n - Units(s[0]) == Utf16Length(s[1..]);
      if Units(s[0]) >= n {
        assert s[1..] == "";
      }
      assert s == [s[0]] + s[1..];
    }
  }
}
