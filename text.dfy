/**
 * Text utilities the relay relies on: decimal rendering and parsing of
 * unsigned integers (as JSON writes them), character search, and substring
 * containment with the meaning of Rust's `str::contains`.
 */
module Text {
  import opened Wrappers

  predicate IsDigit(c: char) {
    '0' <= c <= '9'
  }

  predicate AllDigits(s: string) {
    forall i :: 0 <= i < |s| ==> IsDigit(s[i])
  }

  function DigitChar(d: nat): (c: char)
    requires d < 10
    ensures IsDigit(c) && c as int - '0' as int == d
  {
    ('0' as int + d) as char
  }

  function DigitValue(c: char): nat
    requires IsDigit(c)
  {
    c as int - '0' as int
  }

  /** Decimal text of `n`, most significant digit first, with no leading zero. */
  function NatToString(n: nat): (s: string)
    ensures |s| > 0 && AllDigits(s)
    ensures s[0] == '0' ==> n == 0 && |s| == 1
    decreases n
  {
    if n < 10 then [DigitChar(n)] else NatToString(n / 10) + [DigitChar(n % 10)]
  }

  /** The number a string of decimal digits denotes. */
  function DigitsValue(s: string): nat
    requires AllDigits(s)
  {
    if |s| == 0 then 0 else 10 * DigitsValue(s[..|s| - 1]) + DigitValue(s[|s| - 1])
  }

  /**
   * Reads an unsigned JSON integer: at least one digit, nothing else, and no
   * leading zero unless the number is 0 itself.
   */
  function ParseNat(s: string): (r: Option<nat>)
    ensures r.Some? <==> |s| > 0 && AllDigits(s) && (s[0] == '0' ==> |s| == 1)
  {
    if |s| > 0 && AllDigits(s) && (s[0] != '0' || |s| == 1) then Some(DigitsValue(s)) else None
  }

  lemma {:induction false} DigitsValueOfNatToString(n: nat)
    ensures DigitsValue(NatToString(n)) == n
    decreases n
  {
    if n >= 10 {
      var s := NatToString(n);
      var p := NatToString(n / 10);
      assert s == p + [DigitChar(n % 10)];
      assert s[..|s| - 1] == p;
      DigitsValueOfNatToString(n / 10);
    }
  }

  /** Parsing what NatToString rendered gives the number back. */
  lemma ParseNatToString(n: nat)
    ensures ParseNat(NatToString(n)) == Some(n)
  {
    DigitsValueOfNatToString(n);
  }

  /** A digit string that starts with a non-zero digit denotes a positive number. */
  lemma {:induction false} LeadingDigitPositive(s: string)
    requires |s| > 0 && AllDigits(s) && s[0] != '0'
    ensures DigitsValue(s) > 0
    decreases |s|
  {
    if |s| > 1 {
      LeadingDigitPositive(s[..|s| - 1]);
    }
  }

  lemma DivModTen(v: nat, d: nat)
    requires d < 10
    ensures (10 * v + d) / 10 == v && (10 * v + d) % 10 == d
  {
  }

  /** Rendering what ParseNat accepted gives the same text back: the decimal form is canonical. */
  lemma {:induction false} NatToStringOfParse(s: string)
    requires ParseNat(s).Some?
    ensures NatToString(ParseNat(s).value) == s
    decreases |s|
  {
    var n := DigitsValue(s);
    var last := s[|s| - 1];
    if |s| == 1 {
      assert s[..0] == [];
      assert DigitsValue(s[..0]) == 0;
      assert DigitsValue(s) == 10 * DigitsValue(s[..0]) + DigitValue(s[0]);
      assert n == DigitValue(last);
      assert DigitChar(n) == last;
      assert NatToString(n) == [last];
    } else {
      var init := s[..|s| - 1];
      assert init[0] == s[0];
      assert AllDigits(init);
      LeadingDigitPositive(init);
      NatToStringOfParse(init);
      var v := DigitsValue(init);
      assert n == 10 * v + DigitValue(last);
      DivModTen(v, DigitValue(last));
      assert n >= 10;
      assert DigitChar(n % 10) == last;
      assert NatToString(n) == NatToString(v) + [last];
      assert s == init + [last];
    }
  }

  /** Position of the first occurrence of `c` in `s`, if any. */
  function IndexOf(s: string, c: char): (r: Option<nat>)
    ensures r.Some? ==> r.value < |s| && s[r.value] == c
    ensures r.Some? ==> forall k :: 0 <= k < r.value ==> s[k] != c
    ensures r.None? ==> forall k :: 0 <= k < |s| ==> s[k] != c
  {
    if |s| == 0 then None
    else if s[0] == c then Some(0)
    else match IndexOf(s[1..], c)
      case None => None
      case Some(k) => Some(k + 1)
  }

  /** Position of the last occurrence of `c` in `s`, if any. */
  function LastIndexOf(s: string, c: char): (r: Option<nat>)
    ensures r.Some? ==> r.value < |s| && s[r.value] == c
    ensures r.Some? ==> forall k :: r.value < k < |s| ==> s[k] != c
    ensures r.None? ==> forall k :: 0 <= k < |s| ==> s[k] != c
  {
    if |s| == 0 then None
    else if s[|s| - 1] == c then Some(|s| - 1)
    else LastIndexOf(s[..|s| - 1], c)
  }

  /** The three pieces of `a + b + c` sit where they were put. */
  lemma Pieces(a: string, b: string, c: string)
    ensures var s := a + b + c;
      && s[..|a|] == a && s[|a|..|a| + |b|] == b && s[|a| + |b|..] == c
      && s[|a|..] == b + c && s[..|a| + |b|] == a + b
  {
  }

  /** A string is its three slices at `i` and `j` put together. */
  lemma Rejoin(s: string, i: nat, j: nat)
    requires i <= j <= |s|
    ensures s == s[..i] + s[i..j] + s[j..]
  {
  }

  /** A string that starts with `p` is `p` and what follows it. */
  lemma PrefixRejoin(p: string, s: string)
    requires p <= s
    ensures s == p + s[|p|..]
  {
    assert s == s[..|p|] + s[|p|..];
  }

  /** Prepending to a concatenation of four pieces. */
  lemma PrependFour(p: string, a: string, b: string, c: string, d: string)
    ensures p + (a + b + c + d) == p + a + b + c + d
  {
  }

  /** The last `c` in `p + q` ends `p`, when `p` ends in `c` and `q` has none. */
  lemma LastIndexOfBefore(p: string, c: char, q: string)
    requires |p| > 0 && p[|p| - 1] == c
    requires forall i :: 0 <= i < |q| ==> q[i] != c
    ensures LastIndexOf(p + q, c) == Some(|p| - 1)
  {
    var s := p + q;
    assert s[|p| - 1] == c;
    assert forall k :: |p| <= k < |s| ==> s[k] == q[k - |p|];
  }

  /** The first `c` in `a + suffix` is the one that starts `suffix`, when `a` has none. */
  lemma IndexOfAfter(a: string, c: char, suffix: string)
    requires forall i :: 0 <= i < |a| ==> a[i] != c
    requires |suffix| > 0 && suffix[0] == c
    ensures IndexOf(a + suffix, c) == Some(|a|)
  {
    var s := a + suffix;
    assert s[|a|] == c;
    assert forall k :: 0 <= k < |a| ==> s[k] == a[k];
  }

  /** `q` occurs in `line`, as Rust's `str::contains` decides it (the empty pattern occurs everywhere). */
  predicate Contains(line: string, q: string)
    decreases |line|
  {
    q <= line || (|line| > 0 && Contains(line[1..], q))
  }

  /** `q` occurs in `line` starting at position `i`. */
  ghost predicate OccursAt(line: string, q: string, i: int) {
    0 <= i && i + |q| <= |line| && line[i..i + |q|] == q
  }

  /** A match found by Contains sits at some position. */
  lemma {:induction false} ContainsHasPosition(line: string, q: string) returns (i: nat)
    requires Contains(line, q)
    ensures OccursAt(line, q, i)
    decreases |line|
  {
    if q <= line {
      i := 0;
    } else {
      var j := ContainsHasPosition(line[1..], q);
      assert line[j + 1..j + 1 + |q|] == line[1..][j..j + |q|];
      i := j + 1;
    }
  }

  /** Contains finds a match wherever one sits. */
  lemma {:induction false} PositionIsContained(line: string, q: string, i: nat)
    requires OccursAt(line, q, i)
    ensures Contains(line, q)
    decreases i
  {
    if i == 0 {
      assert q == line[..|q|];
    } else {
      assert line[1..][i - 1..i - 1 + |q|] == line[i..i + |q|];
      PositionIsContained(line[1..], q, i - 1);
    }
  }

  /** Contains is exactly "occurs at some position". */
  lemma ContainsIffOccurs(line: string, q: string)
    ensures Contains(line, q) <==> exists i :: OccursAt(line, q, i)
  {
    if Contains(line, q) {
      var i := ContainsHasPosition(line, q);
    }
    if exists i :: OccursAt(line, q, i) {
      var i :| OccursAt(line, q, i);
      PositionIsContained(line, q, i);
    }
  }
}
