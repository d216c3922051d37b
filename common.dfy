/**
 * Helpers shared by the whole model: an Option type for C#'s nullable
 * values, ordinal case-insensitive comparison (on ASCII letters), the
 * integer parser behind `int.TryParse`, the `D<n>` and `F<n>` number
 * formats used to build identifiers and messages, and 32-bit wrap-around.
 */
module Common {

  datatype Option<T> = None | Some(value: T) {
    /** `x ?? d` in C#. */
    function GetOr(d: T): T {
      match this
      case Some(v) => v
      case None => d
    }
  }

  // ---------------------------------------------------------------------
  // 32-bit integers
  // ---------------------------------------------------------------------

  const Int32Min: int := -0x8000_0000
  const Int32Max: int := 0x7FFF_FFFF

  predicate InInt32(x: int) {
    Int32Min <= x <= Int32Max
  }

  /** `x + 1` on a C# `int` in an unchecked context: wraps at Int32Max. */
  function Inc32(x: int): (r: int)
    requires InInt32(x)
    ensures InInt32(r)
    ensures x < Int32Max ==> r == x + 1
    ensures x == Int32Max ==> r == Int32Min
  {
    if x == Int32Max then Int32Min else x + 1
  }

  // ---------------------------------------------------------------------
  // Strings
  // ---------------------------------------------------------------------

  predicate StartsWith(s: string, prefix: string) {
    |prefix| <= |s| && s[..|prefix|] == prefix
  }

  /** Upper-casing of one character, as ordinal-ignore-case comparison does for ASCII letters. */
  function UpperAscii(c: char): char {
    if 'a' <= c <= 'z' then (c as int - 32) as char else c
  }

  function FoldCase(s: string): (r: string)
    ensures |r| == |s|
    ensures forall i :: 0 <= i < |s| ==> r[i] == UpperAscii(s[i])
  {
    seq(|s|, i requires 0 <= i < |s| => UpperAscii(s[i]))
  }

  /** `a.Equals(b, StringComparison.OrdinalIgnoreCase)`, restricted to ASCII case folding. */
  predicate EqualsIgnoreCase(a: string, b: string) {
    FoldCase(a) == FoldCase(b)
  }

  lemma EqualsIgnoreCaseIsEquivalence(a: string, b: string, c: string)
    ensures EqualsIgnoreCase(a, a)
    ensures EqualsIgnoreCase(a, b) ==> EqualsIgnoreCase(b, a)
    ensures EqualsIgnoreCase(a, b) && EqualsIgnoreCase(b, c) ==> EqualsIgnoreCase(a, c)
  {
  }

  /** Differing only in the case of ASCII letters is enough for a match. */
  lemma EqualsIgnoreCaseExample()
    ensures EqualsIgnoreCase("Admin", "aDMIN")
    ensures !EqualsIgnoreCase("Admin", "Admin ")
  {
    assert FoldCase("Admin") == "ADMIN";
    assert FoldCase("aDMIN") == "ADMIN";
  }

  // ---------------------------------------------------------------------
  // Decimal digits
  // ---------------------------------------------------------------------

  predicate IsDigit(c: char) {
    '0' <= c <= '9'
  }

  predicate AllDigits(s: string) {
    forall i :: 0 <= i < |s| ==> IsDigit(s[i])
  }

  function DigitChar(d: nat): char
    requires d < 10
  {
    ('0' as int + d) as char
  }

  function DigitValue(c: char): nat
    requires IsDigit(c)
  {
    c as int - '0' as int
  }

  /** The value of a string of decimal digits, most significant first. */
  function DigitsValue(s: string): nat
    requires AllDigits(s)
  {
    if s == [] then 0 else DigitsValue(s[..|s| - 1]) * 10 + DigitValue(s[|s| - 1])
  }

  /** The shortest decimal representation of `n`. */
  function NatDigits(n: nat): (r: string)
    ensures |r| > 0 && AllDigits(r)
  {
    if n < 10 then [DigitChar(n)] else NatDigits(n / 10) + [DigitChar(n % 10)]
  }

  /** Pads `s` on the left with '0' up to `width` characters. */
  function PadZeros(s: string, width: nat): (r: string)
    ensures |r| == if |s| >= width then |s| else width
    ensures AllDigits(s) ==> AllDigits(r)
    decreases width - |s|
  {
    if |s| >= width then s else PadZeros("0" + s, width)
  }

  lemma {:induction false} NatDigitsValue(n: nat)
    ensures DigitsValue(NatDigits(n)) == n
  {
    if n >= 10 {
      var s := NatDigits(n / 10);
      var t := s + [DigitChar(n % 10)];
      assert t[..|t| - 1] == s;
      NatDigitsValue(n / 10);
    }
  }

  lemma {:induction false} LeadingZeroValue(s: string)
    requires AllDigits(s)
    ensures AllDigits("0" + s) && DigitsValue("0" + s) == DigitsValue(s)
    decreases |s|
  {
    var t := "0" + s;
    assert AllDigits(t);
    if s == [] {
      assert t[..|t| - 1] == [];
    } else {
      var init := s[..|s| - 1];
      assert t[..|t| - 1] == "0" + init;
      LeadingZeroValue(init);
    }
  }

  lemma {:induction false} PadZerosValue(s: string, width: nat)
    requires AllDigits(s)
    ensures DigitsValue(PadZeros(s, width)) == DigitsValue(s)
    decreases width - |s|
  {
    if |s| < width {
      LeadingZeroValue(s);
      PadZerosValue("0" + s, width);
    }
  }

  // ---------------------------------------------------------------------
  // `int.TryParse(s, out n)` with the default NumberStyles.Integer:
  // optional leading and trailing white space (U+0009..U+000D, U+0020),
  // an optional leading '+' or '-', then one or more decimal digits; the
  // value must fit in 32 bits.
  // ---------------------------------------------------------------------

  predicate IsWhite(c: char) {
    c == ' ' || '\t' <= c <= '\r'
  }

  function TrimStart(s: string): (r: string)
    ensures |r| <= |s|
    ensures r == [] || !IsWhite(r[0])
  {
    if s != [] && IsWhite(s[0]) then TrimStart(s[1..]) else s
  }

  function TrimEnd(s: string): (r: string)
    ensures |r| <= |s|
    ensures r == [] || !IsWhite(r[|r| - 1])
  {
    if s != [] && IsWhite(s[|s| - 1]) then TrimEnd(s[..|s| - 1]) else s
  }

  function ParseInt32(s: string): (r: Option<int>)
    ensures r.Some? ==> InInt32(r.value)
  {
    var t := TrimEnd(TrimStart(s));
    var negative := |t| > 0 && t[0] == '-';
    var digits := if |t| > 0 && (t[0] == '-' || t[0] == '+') then t[1..] else t;
    if digits == [] || !AllDigits(digits) then None
    else
      var v: int := DigitsValue(digits);
      var n := if negative then -v else v;
      if InInt32(n) then Some(n) else None
  }

  // ---------------------------------------------------------------------
  // `n.ToString("D<width>")`: a '-' for negative values, then the digits of
  // the magnitude padded with zeros to at least `width` characters.
  // ---------------------------------------------------------------------

  function FormatD(n: int, width: nat): string {
    if n < 0 then "-" + PadZeros(NatDigits(-n), width) else PadZeros(NatDigits(n), width)
  }

  /** A string with no white space at either end is left alone by trimming. */
  lemma TrimmedAlready(s: string)
    requires s != [] && !IsWhite(s[0]) && !IsWhite(s[|s| - 1])
    ensures TrimEnd(TrimStart(s)) == s
  {
  }

  /** Unsigned digits parse to their value. */
  lemma ParseDigits(p: string)
    requires p != [] && AllDigits(p) && InInt32(DigitsValue(p))
    ensures ParseInt32(p) == Some(DigitsValue(p))
  {
    TrimmedAlready(p);
  }

  /** A minus sign and digits parse to the negated value. */
  lemma ParseNegated(p: string)
    requires p != [] && AllDigits(p) && InInt32(-(DigitsValue(p) as int))
    ensures ParseInt32("-" + p) == Some(-(DigitsValue(p) as int))
  {
    var s := "-" + p;
    assert s[0] == '-' && s[1..] == p;
    assert s[|s| - 1] == p[|p| - 1] && IsDigit(p[|p| - 1]);
    TrimmedAlready(s);
  }

  /** A formatted 32-bit value reads back as itself. */
  lemma FormatDParses(n: int, width: nat)
    requires InInt32(n)
    ensures ParseInt32(FormatD(n, width)) == Some(n)
  {
    var m: nat := if n < 0 then -n else n;
    NatDigitsValue(m);
    PadZerosValue(NatDigits(m), width);
    if n < 0 {
      ParseNegated(PadZeros(NatDigits(m), width));
    } else {
      ParseDigits(PadZeros(NatDigits(m), width));
    }
  }

  /**
   * An identifier built as `prefix + n.ToString("D<width>")` starts with the
   * prefix and its suffix parses back to `n`.
   */
  lemma PrefixedNumberParses(prefix: string, n: int, width: nat)
    requires InInt32(n)
    ensures StartsWith(prefix + FormatD(n, width), prefix)
    ensures ParseInt32((prefix + FormatD(n, width))[|prefix|..]) == Some(n)
  {
    var id := prefix + FormatD(n, width);
    assert id[..|prefix|] == prefix;
    assert id[|prefix|..] == FormatD(n, width);
    FormatDParses(n, width);
  }

  // ---------------------------------------------------------------------
  // `x.ToString("F<decimals>")` on a decimal: rounded half away from zero to
  // `decimals` places; a value that rounds to zero prints without a sign.
  // ---------------------------------------------------------------------

  function Pow10(k: nat): (r: nat)
    ensures r >= 1
  {
    if k == 0 then 1 else 10 * Pow10(k - 1)
  }

  function Abs(n: int): nat {
    if n < 0 then -n else n
  }

  function RoundHalfAwayFromZero(x: real): int {
    if x >= 0.0 then (x + 0.5).Floor else -((-x + 0.5).Floor)
  }

  /**
   * The digits of `m / 10^decimals` with exactly `decimals` places after the
   * point: the digits of `m`, padded so that at least one stands before it.
   */
  function FixedDigits(m: nat, decimals: nat): string {
    var s := PadZeros(NatDigits(m), decimals + 1);
    if decimals == 0 then s else s[..|s| - decimals] + "." + s[|s| - decimals..]
  }

  function FormatFixed(x: real, decimals: nat): string {
    var n := RoundHalfAwayFromZero(x * (Pow10(decimals) as real));
    (if n < 0 then "-" else "") + FixedDigits(Abs(n), decimals)
  }

  /** Multiplying both sides by a positive number keeps a strict comparison. */
  lemma MulStrict(x: real, y: real, t: real)
    requires t > 0.0
    ensures x > y <==> x * t > y * t
  {
    if x > y {
      assert (x - y) * t > 0.0;
    } else {
      assert (y - x) * t >= 0.0;
    }
  }

  // ---------------------------------------------------------------------
  // LINQ `FirstOrDefault(p)`: the position of the first element satisfying p
  // ---------------------------------------------------------------------

  function FindFirst<T>(s: seq<T>, p: T -> bool): (r: Option<nat>)
    ensures r.Some? ==> r.value < |s| && p(s[r.value])
    ensures r.Some? ==> forall j :: 0 <= j < r.value ==> !p(s[j])
    ensures r.None? <==> forall j :: 0 <= j < |s| ==> !p(s[j])
  {
    if s == [] then None
    else if p(s[0]) then Some(0)
    else
      match FindFirst(s[1..], p)
      case None => None
      case Some(i) => Some(i + 1)
  }

  /** A scan that stops at the first element satisfying p has found what FindFirst finds. */
  lemma FirstMatchAt<T>(s: seq<T>, p: T -> bool, i: nat)
    requires i < |s| && p(s[i])
    requires forall j :: 0 <= j < i ==> !p(s[j])
    ensures FindFirst(s, p) == Some(i)
  {
    assert FindFirst(s, p).Some?;
  }

  // ---------------------------------------------------------------------
  // Maxima of integer sequences (LINQ `Max` after `DefaultIfEmpty(d)`)
  // ---------------------------------------------------------------------

  function MaxOrDefault(xs: seq<int>, d: int): (r: int)
    ensures xs == [] ==> r == d
    ensures forall i :: 0 <= i < |xs| ==> xs[i] <= r
    ensures xs != [] ==> exists i :: 0 <= i < |xs| && xs[i] == r
  {
    if xs == [] then d
    else if |xs| == 1 then xs[0]
    else
      var m := MaxOrDefault(xs[1..], d);
      assert forall i :: 1 <= i < |xs| ==> xs[i] == xs[1..][i - 1];
      if xs[0] >= m then xs[0] else m
  }

  // ---------------------------------------------------------------------
  // Sequential identifiers: prefix, then one past the largest number, D3
  // ---------------------------------------------------------------------

  /** The number an identifier contributes: only prefixed ones count, an unparsable suffix as 0. */
  function PrefixedNumber(id: string, prefix: string): (r: Option<int>)
    ensures r.Some? <==> StartsWith(id, prefix)
    ensures r.Some? ==> InInt32(r.value)
  {
    if StartsWith(id, prefix) then Some(ParseInt32(id[|prefix|..]).GetOr(0)) else None
  }

  /** The numbers of the prefixed identifiers, in order. */
  function PrefixedNumbers(ids: seq<string>, prefix: string): (r: seq<int>)
    ensures forall i :: 0 <= i < |r| ==> InInt32(r[i])
    ensures forall k :: 0 <= k < |ids| && PrefixedNumber(ids[k], prefix).Some? ==>
      PrefixedNumber(ids[k], prefix).value in r
  {
    if ids == [] then []
    else
      var init := PrefixedNumbers(ids[..|ids| - 1], prefix);
      assert forall k :: 0 <= k < |ids| - 1 ==> ids[..|ids| - 1][k] == ids[k];
      match PrefixedNumber(ids[|ids| - 1], prefix)
      case None => init
      case Some(n) => init + [n]
  }

  /**
   * The list holds nothing but the numbers of prefixed identifiers: each
   * element is the number of one of them, and the list is empty exactly
   * when none is prefixed.
   */
  lemma {:induction false} PrefixedNumbersSound(ids: seq<string>, prefix: string)
    ensures forall i :: 0 <= i < |PrefixedNumbers(ids, prefix)| ==>
      exists k :: 0 <= k < |ids| && PrefixedNumber(ids[k], prefix) == Some(PrefixedNumbers(ids, prefix)[i])
    ensures PrefixedNumbers(ids, prefix) == [] <==> forall k :: 0 <= k < |ids| ==> PrefixedNumber(ids[k], prefix).None?
  {
    if ids != [] {
      var n := |ids| - 1;
      var init := PrefixedNumbers(ids[..n], prefix);
      PrefixedNumbersSound(ids[..n], prefix);
      assert forall k :: 0 <= k < n ==> ids[..n][k] == ids[k];
      var r := PrefixedNumbers(ids, prefix);
      var last := match PrefixedNumber(ids[n], prefix) case None => [] case Some(v) => [v];
      assert r == init + last;
      forall i | 0 <= i < |r|
        ensures exists k :: 0 <= k < |ids| && PrefixedNumber(ids[k], prefix) == Some(r[i])
      {
        if i < |init| {
          assert r[i] == init[i];
          var k :| 0 <= k < n && PrefixedNumber(ids[..n][k], prefix) == Some(init[i]);
          assert PrefixedNumber(ids[k], prefix) == Some(r[i]);
        } else {
          assert r[i] == last[0];
          assert PrefixedNumber(ids[n], prefix) == Some(r[i]);
        }
      }
    } else {
      assert PrefixedNumbers(ids, prefix) == [];
    }
  }

  /** `.Select(parse or 0).DefaultIfEmpty(0).Max()` over the prefixed identifiers. */
  function MaxPrefixedNumber(ids: seq<string>, prefix: string): (r: int)
    ensures InInt32(r)
    ensures forall k :: 0 <= k < |ids| && PrefixedNumber(ids[k], prefix).Some? ==>
      PrefixedNumber(ids[k], prefix).value <= r
  {
    var ns := PrefixedNumbers(ids, prefix);
    var m := MaxOrDefault(ns, 0);
    assert ns != [] ==> InInt32(m);
    m
  }

  /**
   * The maximum is 0 when no identifier is prefixed; otherwise it is the
   * number of one of them, which no other prefixed number exceeds. So the
   * next identifier's number is one past the largest.
   */
  lemma MaxPrefixedNumberSpec(ids: seq<string>, prefix: string)
    ensures (forall k :: 0 <= k < |ids| ==> PrefixedNumber(ids[k], prefix).None?) ==> MaxPrefixedNumber(ids, prefix) == 0
    ensures (exists k :: 0 <= k < |ids| && PrefixedNumber(ids[k], prefix).Some?) ==>
      exists k :: 0 <= k < |ids| && PrefixedNumber(ids[k], prefix) == Some(MaxPrefixedNumber(ids, prefix))
  {
    var ns := PrefixedNumbers(ids, prefix);
    PrefixedNumbersSound(ids, prefix);
    if ns != [] {
      var i :| 0 <= i < |ns| && ns[i] == MaxPrefixedNumber(ids, prefix);
      var k :| 0 <= k < |ids| && PrefixedNumber(ids[k], prefix) == Some(ns[i]);
    }
  }

  /** The next identifier: prefix + "001" for an empty table, else one past the largest number in D3 format. */
  function NextPrefixedId(ids: seq<string>, prefix: string): string {
    if ids == [] then prefix + "001"
    else prefix + FormatD(Inc32(MaxPrefixedNumber(ids, prefix)), 3)
  }

  lemma FormatOne()
    ensures FormatD(1, 3) == "001"
  {
    assert NatDigits(1) == "1";
    assert PadZeros("1", 3) == PadZeros("01", 3) == "001";
  }

  /**
   * The next identifier carries a number above every prefixed number in the
   * table, so no identifier in it is the same (short of 32-bit wrap-around).
   */
  lemma NextPrefixedIdFresh(ids: seq<string>, prefix: string)
    requires MaxPrefixedNumber(ids, prefix) < Int32Max
    ensures PrefixedNumber(NextPrefixedId(ids, prefix), prefix) == Some(MaxPrefixedNumber(ids, prefix) + 1)
    ensures forall k :: 0 <= k < |ids| && PrefixedNumber(ids[k], prefix).Some? ==>
      PrefixedNumber(ids[k], prefix).value < MaxPrefixedNumber(ids, prefix) + 1
    ensures forall k :: 0 <= k < |ids| ==> ids[k] != NextPrefixedId(ids, prefix)
  {
    var n := MaxPrefixedNumber(ids, prefix) + 1;
    PrefixedNumberParses(prefix, n, 3);
    if ids == [] {
      FormatOne();
    }
    assert PrefixedNumber(NextPrefixedId(ids, prefix), prefix) == Some(n);
    if ids != [] {
      forall k | 0 <= k < |ids| ensures ids[k] != NextPrefixedId(ids, prefix) {
        var id := ids[k];
        assert id == NextPrefixedId(ids, prefix) ==> PrefixedNumber(id, prefix) == Some(n);
      }
    }
  }

  lemma {:induction false} PrefixedNumbersForeign(ids: seq<string>, prefix: string)
    requires forall k :: 0 <= k < |ids| ==> !StartsWith(ids[k], prefix)
    ensures PrefixedNumbers(ids, prefix) == []
  {
    if ids != [] {
      PrefixedNumbersForeign(ids[..|ids| - 1], prefix);
    }
  }

  /** A table with no prefixed identifier, empty or not, starts at prefix + "001". */
  lemma ForeignIdsStartAtOne(ids: seq<string>, prefix: string)
    requires forall k :: 0 <= k < |ids| ==> !StartsWith(ids[k], prefix)
    ensures NextPrefixedId(ids, prefix) == prefix + "001"
  {
    PrefixedNumbersForeign(ids, prefix);
    FormatOne();
  }
}
