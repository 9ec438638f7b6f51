/**
 The string operations of Python's runtime that the analyzer leans on:
 the `in` test between two strings, `str.lower`, `str(n)` for a count and
 `sep.join(parts)`.
 */
module Text {

  /** Python's `w in s` on two strings: `w` occurs in `s` as a contiguous
      run of characters. The empty string occurs in every string. */
  function Contains(s: string, w: string): (b: bool)
    ensures w <= s ==> b
    ensures b ==> |w| <= |s|
    ensures |w| == |s| ==> (b <==> w == s)
    decreases |s|
  {
    if w <= s then true
    else if |s| <= |w| then false
    else Contains(s[1..], w)
  }

  /** `w` sits in `s` starting at position `i`. */
  ghost predicate OccursAt(w: string, s: string, i: int) {
    0 <= i && i + |w| <= |s| && s[i..i + |w|] == w
  }

  /** `w` is a substring of `s`: it sits in `s` at some position. */
  ghost predicate IsSubstring(w: string, s: string) {
    exists i :: OccursAt(w, s, i)
  }

  /** The scan above decides exactly substring occurrence. */
  lemma {:induction false} ContainsIsSubstring(s: string, w: string)
    ensures Contains(s, w) <==> IsSubstring(w, s)
    decreases |s|
  {
    if w <= s {
      assert OccursAt(w, s, 0);
    } else if |s| <= |w| {
      forall i | 0 <= i && i + |w| <= |s|
        ensures !OccursAt(w, s, i)
      {
        assert i == 0 && |s| == |w|;
        assert s[0..|w|] == s;
      }
    } else {
      ContainsIsSubstring(s[1..], w);
      forall i | OccursAt(w, s[1..], i)
        ensures OccursAt(w, s, i + 1)
      {
        assert s[1..][i..i + |w|] == s[i + 1..i + 1 + |w|];
      }
      assert !OccursAt(w, s, 0);
      forall i | OccursAt(w, s, i)
        ensures OccursAt(w, s[1..], i - 1)
      {
        assert s[1..][i - 1..i - 1 + |w|] == s[i..i + |w|];
      }
    }
  }

  /** `str.lower` on one character, for the ASCII letters. */
  function LowerChar(c: char): char {
    if 'A' <= c <= 'Z' then (c as int - 'A' as int + 'a' as int) as char else c
  }

  /** `str.lower` on a token, character by character: each ASCII capital
      becomes its small letter and every other character stays. */
  function Lower(t: string): (r: string)
    ensures |r| == |t|
    ensures forall i :: 0 <= i < |t| ==> !('A' <= r[i] <= 'Z')
    ensures forall i :: 0 <= i < |t| && 'A' <= t[i] <= 'Z' ==> r[i] as int == t[i] as int + 32
    ensures forall i :: 0 <= i < |t| && !('A' <= t[i] <= 'Z') ==> r[i] == t[i]
  {
    seq(|t|, i requires 0 <= i < |t| => LowerChar(t[i]))
  }

  /** Lowering keeps the length and leaves nothing to lower. */
  lemma LowerIdempotent(t: string)
    ensures |Lower(t)| == |t|
    ensures Lower(Lower(t)) == Lower(t)
    ensures forall i :: 0 <= i < |t| ==> !('A' <= Lower(t)[i] <= 'Z')
  {
  }

  predicate IsDigit(c: char) {
    '0' <= c <= '9'
  }

  function DigitChar(d: nat): (c: char)
    requires d < 10
  {
    ('0' as int + d) as char
  }

  function DigitValue(c: char): (d: nat)
    requires IsDigit(c)
  {
    c as int - '0' as int
  }

  /** `str(n)` for a non-negative integer: its decimal digits, most
      significant first, with no leading zero. */
  function Decimal(n: nat): (s: string)
    ensures |s| >= 1
    ensures forall i :: 0 <= i < |s| ==> IsDigit(s[i])
    ensures |s| == 1 || s[0] != '0'
  {
    if n < 10 then [DigitChar(n)] else Decimal(n / 10) + [DigitChar(n % 10)]
  }

  /** The value of a run of decimal digits. */
  function ParseDecimal(s: string): nat
    requires forall i :: 0 <= i < |s| ==> IsDigit(s[i])
  {
    if |s| == 0 then 0 else 10 * ParseDecimal(s[..|s| - 1]) + DigitValue(s[|s| - 1])
  }

  /** Reading the digits of `n` back gives `n`, so distinct counts print
      distinctly. */
  lemma {:induction false} DecimalRoundTrip(n: nat)
    ensures ParseDecimal(Decimal(n)) == n
  {
    if n >= 10 {
      DecimalRoundTrip(n / 10);
      var s := Decimal(n);
      assert s[..|s| - 1] == Decimal(n / 10);
    }
  }

  /** Python's `sep.join(parts)`. */
  function Join(parts: seq<string>, sep: string): (r: string)
    ensures |parts| == 0 ==> r == ""
    ensures |parts| == 1 ==> r == parts[0]
    ensures |parts| >= 1 ==> parts[0] <= r
    ensures |parts| >= 2 ==> parts[0] + sep <= r
  {
    if |parts| == 0 then ""
    else if |parts| == 1 then parts[0]
    else parts[0] + sep + Join(parts[1..], sep)
  }

  /** Joining one more part appends a separator and that part. */
  lemma {:induction false} JoinAppend(parts: seq<string>, sep: string, p: string)
    requires |parts| >= 1
    ensures Join(parts + [p], sep) == Join(parts, sep) + sep + p
  {
    if |parts| > 1 {
      assert (parts + [p])[1..] == parts[1..] + [p];
      JoinAppend(parts[1..], sep, p);
    } else {
      assert (parts + [p])[1..] == [p];
    }
  }

  /** A join of two or more parts is the join of all but the last part, a
      separator, and the last part. */
  lemma JoinLast(parts: seq<string>, sep: string)
    ensures |parts| >= 2 ==>
      Join(parts, sep) == Join(parts[..|parts| - 1], sep) + sep + parts[|parts| - 1]
  {
    if |parts| >= 2 {
      var init := parts[..|parts| - 1];
      assert parts == init + [parts[|parts| - 1]];
      JoinAppend(init, sep, parts[|parts| - 1]);
    }
  }

  function TotalLength(parts: seq<string>): nat {
    if |parts| == 0 then 0 else |parts[0]| + TotalLength(parts[1..])
  }

  /** A join of no parts is empty, of one part is that part, and otherwise
      starts with the first part and is as long as all parts plus one
      separator between each neighbouring pair. */
  lemma {:induction false} JoinLength(parts: seq<string>, sep: string)
    ensures |parts| == 0 ==> Join(parts, sep) == ""
    ensures |parts| == 1 ==> Join(parts, sep) == parts[0]
    ensures |parts| >= 1 ==> |Join(parts, sep)| == TotalLength(parts) + (|parts| - 1) * |sep|
    ensures |parts| >= 1 ==> parts[0] <= Join(parts, sep)
  {
    if |parts| > 1 {
      JoinLength(parts[1..], sep);
    }
  }
}
