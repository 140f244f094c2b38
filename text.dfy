/**
 * The string primitives the client's parsers are built from, with the C and
 * C++ library behaviour they rely on written out: `std::string::find` stored
 * into an `int` (so "not found" reads as -1), `atoi`, the decimal text a
 * `std::stringstream` produces for an `int`, and `std::remove_copy`.
 */
module Text {

  predicate IsDigit(c: char) { '0' <= c <= '9' }

  /** The characters `isspace` accepts in the "C" locale. */
  predicate IsSpace(c: char) {
    c == ' ' || c == '\t' || c == '\n' || c == '\r' || c == '\U{B}' || c == '\U{C}'
  }

  predicate AllDigits(s: string) {
    forall i :: 0 <= i < |s| ==> IsDigit(s[i])
  }

  /** `(int) s.find(c)`: the first index of `c` in `s`, or -1 when there is none. */
  function Find(s: string, c: char): (i: int)
    ensures -1 <= i < |s|
    ensures i >= 0 ==> s[i] == c && c !in s[..i]
    ensures i == -1 <==> c !in s
  {
    if |s| == 0 then -1
    else if s[0] == c then 0
    else
      var j := Find(s[1..], c);
      assert s[1..] == s[1..][..|s| - 1];
      if j < 0 then -1
      else
        assert s[..j + 1] == [s[0]] + s[1..][..j];
        j + 1
  }

  /** `pat` starts at index `j` of `s`. */
  predicate OccursAt(s: string, pat: string, j: int) {
    0 <= j && j + |pat| <= |s| && s[j..j + |pat|] == pat
  }

  /** `(int) s.find(pat)`: the first index at which `pat` occurs in `s`, or -1. */
  function FindText(s: string, pat: string): (i: int)
    requires |pat| > 0
    ensures -1 <= i
    ensures i >= 0 ==> OccursAt(s, pat, i)
    ensures forall j :: 0 <= j && (i == -1 || j < i) ==> !OccursAt(s, pat, j)
  {
    if |s| < |pat| then -1
    else if s[..|pat|] == pat then 0
    else
      var j := FindText(s[1..], pat);
      ShiftOccurrence(s, pat);
      if j < 0 then -1 else j + 1
  }

  /** An occurrence at `k` in `s`, past its first character, is an occurrence at `k - 1` in `s[1..]`. */
  lemma {:induction false} ShiftOccurrence(s: string, pat: string)
    requires |s| > 0
    ensures forall k :: 1 <= k ==> (OccursAt(s, pat, k) <==> OccursAt(s[1..], pat, k - 1))
  {
    forall k | 1 <= k ensures OccursAt(s, pat, k) <==> OccursAt(s[1..], pat, k - 1) {
      if k + |pat| <= |s| {
        var a, b := s[k..k + |pat|], s[1..][k - 1..k - 1 + |pat|];
        forall i | 0 <= i < |pat| ensures a[i] == b[i] {
          assert a[i] == s[k + i] && b[i] == s[1..][k - 1 + i];
        }
        assert a == b;
      }
    }
  }

  /** The text after index `pos`, as `s.erase(0, pos + 1)` leaves it (pos = -1 erases nothing). */
  function After(s: string, pos: int): (r: string)
    requires -1 <= pos < |s|
    ensures |r| == |s| - pos - 1
  {
    s[pos + 1..]
  }

  /** What `std::remove_copy(.., c)` copies out of `s`: every character except `c`, in order. */
  function Without(s: string, c: char): (r: string)
    ensures c !in r
    ensures |r| <= |s|
    ensures c !in s ==> r == s
    ensures multiset(r) == multiset(s)[c := 0]
  {
    assert |s| > 0 ==> s == [s[0]] + s[1..];
    if |s| == 0 then ""
    else if s[0] == c then Without(s[1..], c)
    else [s[0]] + Without(s[1..], c)
  }

  /** `remove_copy` works character by character: the order of what is kept is the order of the input. */
  lemma {:induction false} WithoutConcat(a: string, b: string, c: char)
    ensures Without(a + b, c) == Without(a, c) + Without(b, c)
  {
    if |a| > 0 {
      assert (a + b)[1..] == a[1..] + b;
      WithoutConcat(a[1..], b, c);
    } else {
      assert a + b == b;
    }
  }

  // ---- atoi ----

  /** The input with the leading white space `atoi` skips removed. */
  function SkipSpace(s: string): (t: string)
    ensures |t| <= |s| && t == s[|s| - |t|..]
    ensures |t| > 0 ==> !IsSpace(t[0])
    ensures forall i :: 0 <= i < |s| - |t| ==> IsSpace(s[i])
  {
    if |s| > 0 && IsSpace(s[0]) then SkipSpace(s[1..]) else s
  }

  /** The longest run of decimal digits at the start of `s`. */
  function LeadingDigits(s: string): (d: string)
    ensures |d| <= |s| && d == s[..|d|] && AllDigits(d)
    ensures |d| < |s| ==> !IsDigit(s[|d|])
  {
    if |s| > 0 && IsDigit(s[0]) then [s[0]] + LeadingDigits(s[1..]) else ""
  }

  /** The number a string of decimal digits denotes. */
  function DigitsValue(d: string): nat
    requires AllDigits(d)
  {
    if |d| == 0 then 0 else DigitsValue(d[..|d| - 1]) * 10 + (d[|d| - 1] as int - '0' as int)
  }

  /**
   * C `atoi`: optional white space, an optional sign, then as many digits as
   * follow; anything else ends the number, and no digits at all give 0.
   */
  function Atoi(s: string): (n: int)
    ensures var t := SkipSpace(s); n < 0 ==> |t| > 0 && t[0] == '-'
    ensures var t := SkipSpace(s); |t| > 0 && t[0] == '-' ==> n <= 0
  {
    SignedDigits(SkipSpace(s))
  }

  /** The number at the start of `t` once the white space is gone: a sign, then the digit run. */
  function SignedDigits(t: string): int {
    if |t| > 0 && t[0] == '-' then -(DigitsValue(LeadingDigits(t[1..])) as int)
    else if |t| > 0 && t[0] == '+' then DigitsValue(LeadingDigits(t[1..]))
    else DigitsValue(LeadingDigits(t))
  }

  // ---- int to text ----

  function DigitChar(d: nat): (c: char)
    requires d < 10
    ensures IsDigit(c) && c as int - '0' as int == d
  {
    ('0' as int + d) as char
  }

  /** The decimal text of `n`, without leading zeros. */
  function NatToString(n: nat): (s: string)
    ensures |s| > 0 && AllDigits(s)
  {
    if n < 10 then [DigitChar(n)] else NatToString(n / 10) + [DigitChar(n % 10)]
  }

  /** What `stream << n` writes for an `int`: a '-' exactly for a negative number, then its digits. */
  function IntToString(n: int): (s: string)
    ensures |s| > 0 && (s[0] == '-' <==> n < 0)
    ensures n >= 0 ==> AllDigits(s)
    ensures n < 0 ==> |s| > 1 && AllDigits(s[1..])
  {
    if n < 0 then "-" + NatToString(-n) else NatToString(n)
  }

  lemma {:induction false} DigitsValueOfNatToString(n: nat)
    ensures DigitsValue(NatToString(n)) == n
  {
    var s := NatToString(n);
    if n >= 10 {
      DigitsValueOfNatToString(n / 10);
      assert s[..|s| - 1] == NatToString(n / 10);
    }
  }

  /** The digit run of a digit string followed by a non-digit is that digit string. */
  lemma {:induction false} LeadingDigitsOfDigitsThen(d: string, tail: string)
    requires AllDigits(d)
    requires tail == "" || !IsDigit(tail[0])
    ensures LeadingDigits(d + tail) == d
  {
    if |d| > 0 {
      LeadingDigitsOfDigitsThen(d[1..], tail);
      assert (d + tail)[1..] == d[1..] + tail;
    }
  }

  /** `atoi` reads back exactly the number `stream << n` wrote, whatever non-digit follows it. */
  lemma {:induction false} AtoiOfIntToString(n: int, tail: string)
    requires tail == "" || !IsDigit(tail[0])
    ensures Atoi(IntToString(n) + tail) == n
  {
    if n < 0 {
      DigitsValueOfNatToString(-n);
      AtoiOfNegativeDigits(NatToString(-n), tail);
      assert IntToString(n) + tail == "-" + NatToString(-n) + tail;
    } else {
      AtoiOfNatToString(n, tail);
    }
  }

  lemma {:induction false} AtoiOfNegativeDigits(d: string, tail: string)
    requires |d| > 0 && AllDigits(d)
    requires tail == "" || !IsDigit(tail[0])
    ensures Atoi("-" + d + tail) == -(DigitsValue(d) as int)
  {
    var v := "-" + d + tail;
    LeadingDigitsOfDigitsThen(d, tail);
    assert v[0] == '-' && SkipSpace(v) == v;
    assert v[1..] == d + tail;
  }

  lemma {:induction false} AtoiOfNatToString(n: nat, tail: string)
    requires tail == "" || !IsDigit(tail[0])
    ensures Atoi(NatToString(n) + tail) == n
  {
    DigitsValueOfNatToString(n);
    AtoiOfDigits(NatToString(n), tail);
  }

  /** A digit string followed by a non-digit reads back as the number it denotes. */
  lemma {:induction false} AtoiOfDigits(d: string, tail: string)
    requires |d| > 0 && AllDigits(d)
    requires tail == "" || !IsDigit(tail[0])
    ensures Atoi(d + tail) == DigitsValue(d)
  {
    var u := d + tail;
    LeadingDigitsOfDigitsThen(d, tail);
    assert u[0] == d[0] && IsDigit(u[0]);
    assert SkipSpace(u) == u;
  }

  /** Without a digit where the number would start, `atoi` gives 0. */
  lemma AtoiWithoutDigits(s: string)
    requires var t := SkipSpace(s);
      |t| == 0 || (if t[0] == '-' || t[0] == '+' then |t| == 1 || !IsDigit(t[1]) else !IsDigit(t[0]))
    ensures Atoi(s) == 0
  {
  }

  /** A `:` ends the number: `atoi` of a field followed by a colon is `atoi` of the field alone. */
  lemma AtoiStopsAtColon(field: string, rest: string)
    ensures Atoi(field + ":" + rest) == Atoi(field)
  {
    assert field + ":" + rest == field + (":" + rest);
    AtoiThen(field, ":" + rest);
  }

  /** Text that starts with neither white space, a sign nor a digit does not change what `atoi` reads before it. */
  lemma AtoiThen(s: string, tail: string)
    requires |tail| > 0 && !IsSpace(tail[0]) && !IsDigit(tail[0]) && tail[0] != '-' && tail[0] != '+'
    ensures Atoi(s + tail) == Atoi(s)
  {
    SkipSpaceThen(s, tail);
    SignedDigitsThen(SkipSpace(s), tail);
  }

  lemma SignedDigitsThen(t: string, tail: string)
    requires |tail| > 0 && !IsDigit(tail[0]) && tail[0] != '-' && tail[0] != '+'
    ensures SignedDigits(t + tail) == SignedDigits(t)
  {
    if |t| == 0 {
      assert t + tail == tail;
    } else if t[0] == '-' || t[0] == '+' {
      assert (t + tail)[0] == t[0];
      assert (t + tail)[1..] == t[1..] + tail;
      LeadingDigitsThen(t[1..], tail);
    } else {
      assert (t + tail)[0] == t[0];
      LeadingDigitsThen(t, tail);
    }
  }

  lemma {:induction false} SkipSpaceThen(s: string, tail: string)
    requires |tail| > 0 && !IsSpace(tail[0])
    ensures SkipSpace(s + tail) == SkipSpace(s) + tail
  {
    if |s| > 0 {
      assert (s + tail)[1..] == s[1..] + tail;
      SkipSpaceThen(s[1..], tail);
    }
  }

  lemma {:induction false} LeadingDigitsThen(s: string, tail: string)
    requires |tail| > 0 && !IsDigit(tail[0])
    ensures LeadingDigits(s + tail) == LeadingDigits(s)
  {
    if |s| > 0 {
      assert (s + tail)[1..] == s[1..] + tail;
      LeadingDigitsThen(s[1..], tail);
    }
  }

  /** The index `Find` gives for a character that first occurs right after `a`. */
  lemma {:induction false} FindAfterPrefix(a: string, c: char, b: string)
    requires c !in a
    ensures Find(a + [c] + b, c) == |a|
    ensures After(a + [c] + b, |a|) == b
  {
    var s := a + [c] + b;
    assert s[|a|] == c && s[..|a|] == a;
    assert s[|a| + 1..] == b;
  }

  /** The index `FindText` gives for a pattern whose first character does not occur before it. */
  lemma FindTextAfterPrefix(a: string, pat: string, b: string)
    requires |pat| > 0 && pat[0] !in a
    ensures FindText(a + pat + b, pat) == |a|
    ensures (a + pat + b)[|a| + |pat|..] == b
  {
    var s := a + pat + b;
    assert s[|a|..|a| + |pat|] == pat;
    assert OccursAt(s, pat, |a|);
    assert forall j :: 0 <= j < |a| ==> s[j] == a[j];
  }

  /** A digit string holds no character that is not a digit. */
  lemma NonDigitNotIn(d: string, c: char)
    requires AllDigits(d) && !IsDigit(c)
    ensures c !in d
  {
  }

  lemma Associative(a: string, b: string, c: string)
    ensures a + b + c == a + (b + c)
  {
  }
}
