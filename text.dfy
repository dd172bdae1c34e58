/**
 * The string helpers of the configuration loader and the state registry:
 * trim, toLower, wstring::find of a substring, and _wtoi.
 */
module Text {
  import opened Wrappers

  /** The characters trim strips: " \t\r\n". */
  predicate IsBlank(c: char) {
    c == ' ' || c == '\t' || c == '\r' || c == '\n'
  }

  predicate AllBlank(s: string) {
    forall k :: 0 <= k < |s| ==> IsBlank(s[k])
  }

  /** find_first_not_of(" \t\r\n") */
  function FindFirstNotBlank(s: string): (r: Option<nat>)
    ensures r.Some? ==> r.value < |s| && !IsBlank(s[r.value]) && AllBlank(s[..r.value])
    ensures r.None? <==> AllBlank(s)
  {
    if s == [] then None
    else if !IsBlank(s[0]) then Some(0)
    else
      match FindFirstNotBlank(s[1..])
      case None => None
      case Some(k) =>
        assert s[..k + 1] == [s[0]] + s[1..][..k];
        Some(k + 1)
  }

  /** find_last_not_of(" \t\r\n") */
  function FindLastNotBlank(s: string): (r: Option<nat>)
    ensures r.Some? ==> r.value < |s| && !IsBlank(s[r.value]) && AllBlank(s[r.value + 1..])
    ensures r.None? <==> AllBlank(s)
  {
    if s == [] then None
    else if !IsBlank(s[|s| - 1]) then Some(|s| - 1)
    else
      var init := s[..|s| - 1];
      assert s == init + [s[|s| - 1]];
      match FindLastNotBlank(init)
      case None =>
        assert AllBlank(s) by {
          forall k | 0 <= k < |s| ensures IsBlank(s[k]) {
            if k < |init| { assert s[k] == init[k]; }
          }
        }
        None
      case Some(k) =>
        assert s[k + 1..] == init[k + 1..] + [s[|s| - 1]];
        assert s[k] == init[k];
        Some(k)
  }

  /**
   * Config::trim: the text between the first and the last character that is
   * not a blank. The result is s with its leading and trailing blanks removed,
   * and nothing else.
   */
  function Trim(s: string): (r: string)
    ensures r == [] <==> AllBlank(s)
    ensures r != [] ==> !IsBlank(r[0]) && !IsBlank(r[|r| - 1])
  {
    match FindFirstNotBlank(s)
    case None =>
      assert s == s + [] + [] && AllBlank([]);
      ""
    case Some(start) =>
      var end := FindLastNotBlank(s).value;
      assert start <= end;
      var r := s[start..end + 1];
      assert r[0] == s[start] && r[|r| - 1] == s[end];
      r
  }

  /** Trim removes leading and trailing blanks and nothing else: pre and post are what it cut. */
  lemma TrimRemovesOnlyBlanks(s: string) returns (pre: string, post: string)
    ensures s == pre + Trim(s) + post && AllBlank(pre) && AllBlank(post)
  {
    var first := FindFirstNotBlank(s);
    if first.None? {
      pre, post := s, [];
      assert Trim(s) == [];
      assert s + [] + [] == s;
    } else {
      var start, end := first.value, FindLastNotBlank(s).value;
      pre, post := s[..start], s[end + 1..];
      assert Trim(s) == s[start..end + 1];
      ThreeParts(s, start, end + 1);
    }
  }

  lemma ThreeParts(s: string, i: nat, j: nat)
    requires i <= j <= |s|
    ensures s == s[..i] + s[i..j] + s[j..]
  {
    assert s == s[..i] + s[i..];
    assert s[i..] == s[i..j] + s[j..];
  }

  /** towlower on the ASCII letters; other characters are left as they are. */
  function LowerChar(c: char): char {
    if 'A' <= c <= 'Z' then (c as int + 32) as char else c
  }

  /** toLower: towlower applied to every character. */
  function ToLower(s: string): (r: string)
    ensures |r| == |s|
    ensures forall k :: 0 <= k < |r| ==> !('A' <= r[k] <= 'Z')
    ensures forall k :: 0 <= k < |r| ==> r[k] == LowerChar(s[k])
  {
    seq(|s|, k requires 0 <= k < |s| => LowerChar(s[k]))
  }

  /** Lower-casing twice is lower-casing once. */
  lemma ToLowerIdempotent(s: string)
    ensures ToLower(ToLower(s)) == ToLower(s)
  {
  }

  /** s contains pat at position k. */
  predicate OccursAt(s: string, pat: string, k: nat) {
    k <= |s| && pat <= s[k..]
  }

  /** s.find(pat) != npos: pat is a substring of s. The empty string is a substring of every string. */
  function Contains(s: string, pat: string): (b: bool)
    ensures b <==> exists k :: 0 <= k <= |s| && OccursAt(s, pat, k)
    decreases |s|
  {
    if pat <= s then
      assert OccursAt(s, pat, 0);
      true
    else if s == [] then
      false
    else
      var b := Contains(s[1..], pat);
      assert forall k :: 1 <= k <= |s| ==> s[k..] == s[1..][k - 1..];
      assert b ==> exists k :: 0 <= k <= |s| && OccursAt(s, pat, k) by {
        if b {
          var k :| 0 <= k <= |s[1..]| && OccursAt(s[1..], pat, k);
          assert OccursAt(s, pat, k + 1);
        }
      }
      assert (exists k :: 0 <= k <= |s| && OccursAt(s, pat, k)) ==> b by {
        if exists k :: 0 <= k <= |s| && OccursAt(s, pat, k) {
          var k :| 0 <= k <= |s| && OccursAt(s, pat, k);
          assert k != 0;
          assert OccursAt(s[1..], pat, k - 1);
        }
      }
      b
  }

  /** The first index of c in s (wstring::find of one character). */
  function IndexOf(s: string, c: char): (r: Option<nat>)
    ensures r.Some? ==> r.value < |s| && s[r.value] == c && c !in s[..r.value]
    ensures r.None? <==> c !in s
  {
    if s == [] then None
    else if s[0] == c then Some(0)
    else
      match IndexOf(s[1..], c)
      case None => None
      case Some(k) =>
        assert s[..k + 1] == [s[0]] + s[1..][..k];
        Some(k + 1)
  }

  // ---- _wtoi ----

  const INT_MIN: int := -0x8000_0000
  const INT_MAX: int := 0x7FFF_FFFF

  /** iswspace in the C locale: space and \t \n \v \f \r. */
  predicate IsSpace(c: char) {
    c == ' ' || '\t' <= c <= '\r'
  }

  predicate IsDigit(c: char) {
    '0' <= c <= '9'
  }

  function DigitValue(c: char): nat
    requires IsDigit(c)
  {
    c as int - '0' as int
  }

  function DropSpaces(s: string): string {
    if s != [] && IsSpace(s[0]) then DropSpaces(s[1..]) else s
  }

  /** The number of decimal digits s starts with. */
  function DigitRun(s: string): (n: nat)
    ensures n <= |s|
    ensures forall k :: 0 <= k < n ==> IsDigit(s[k])
    ensures n < |s| ==> !IsDigit(s[n])
  {
    if s != [] && IsDigit(s[0]) then 1 + DigitRun(s[1..]) else 0
  }

  /** The value of a string of decimal digits, most significant first. */
  function DecimalValue(s: string): nat
    requires forall k :: 0 <= k < |s| ==> IsDigit(s[k])
  {
    if s == [] then 0 else 10 * DecimalValue(s[..|s| - 1]) + DigitValue(s[|s| - 1])
  }

  function Saturate(v: int): (r: int)
    ensures INT_MIN <= r <= INT_MAX
    ensures INT_MIN <= v <= INT_MAX ==> r == v
  {
    if v < INT_MIN then INT_MIN else if v > INT_MAX then INT_MAX else v
  }

  /**
   * _wtoi: skip white space, read an optional sign and the decimal digits that
   * follow, and stop at the first other character. A result beyond the 32-bit
   * range is clamped to INT_MIN / INT_MAX, as the Microsoft C runtime does;
   * a string without digits gives 0.
   */
  function Wtoi(s: string): (r: int)
    ensures INT_MIN <= r <= INT_MAX
  {
    var t := DropSpaces(s);
    var negative := t != [] && t[0] == '-';
    var u := UnsignedPart(t);
    var magnitude := DecimalValue(u[..DigitRun(u)]);
    Saturate(if negative then -(magnitude as int) else magnitude)
  }

  /** What follows the optional sign. */
  function UnsignedPart(t: string): string {
    if t != [] && (t[0] == '-' || t[0] == '+') then t[1..] else t
  }

  /** The decimal digits of n, as printed without sign or leading zeros. */
  function Decimal(n: nat): (s: string)
    ensures s != [] && forall k :: 0 <= k < |s| ==> IsDigit(s[k])
  {
    if n < 10 then [('0' as int + n) as char]
    else Decimal(n / 10) + [('0' as int + n % 10) as char]
  }

  lemma {:induction false} DecimalValueOfDecimal(n: nat)
    ensures DecimalValue(Decimal(n)) == n
  {
    if n >= 10 {
      var s := Decimal(n);
      assert s[..|s| - 1] == Decimal(n / 10);
      DecimalValueOfDecimal(n / 10);
    }
  }

  /** _wtoi reads back every decimal number in the 32-bit range, with or without a minus sign. */
  lemma WtoiOfDecimal(n: nat, negative: bool)
    requires n <= INT_MAX
    ensures Wtoi(if negative then "-" + Decimal(n) else Decimal(n)) == (if negative then -(n as int) else n)
  {
    var d := Decimal(n);
    var s := if negative then "-" + d else d;
    assert DropSpaces(s) == s;
    var u := if negative then s[1..] else s;
    assert u == d;
    assert DigitRun(u) == |d| by {
      DigitRunAllDigits(d);
    }
    assert u[..DigitRun(u)] == d;
    DecimalValueOfDecimal(n);
  }

  /** _wtoi after white space and an optional sign reads the digits up to the first other character, then saturates. */
  lemma WtoiReads(ws: string, sign: string, n: nat, rest: string)
    requires forall k :: 0 <= k < |ws| ==> IsSpace(ws[k])
    requires sign == "" || sign == "+" || sign == "-"
    requires rest == [] || !IsDigit(rest[0])
    ensures Wtoi(ws + (sign + Decimal(n) + rest)) == Saturate(if sign == "-" then -(n as int) else n)
  {
    var t := sign + Decimal(n) + rest;
    WtoiSkipsSpaces(ws, t);
    WtoiSignedDigits(sign, n, rest);
  }

  /** Leading white space does not change what _wtoi reads. */
  lemma WtoiSkipsSpaces(ws: string, t: string)
    requires forall k :: 0 <= k < |ws| ==> IsSpace(ws[k])
    requires t == [] || !IsSpace(t[0])
    ensures Wtoi(ws + t) == Wtoi(t)
  {
    DropLeadingSpaces(ws, t);
    DropLeadingSpaces([], t);
    assert [] + t == t;
  }

  lemma WtoiSignedDigits(sign: string, n: nat, rest: string)
    requires sign == "" || sign == "+" || sign == "-"
    requires rest == [] || !IsDigit(rest[0])
    ensures Wtoi(sign + Decimal(n) + rest) == Saturate(if sign == "-" then -(n as int) else n)
  {
    var d := Decimal(n);
    var u := d + rest;
    DigitRunThenOther(d, rest);
    assert u[..|d|] == d;
    DecimalValueOfDecimal(n);
    assert !IsSpace(u[0]) && u[0] != '-' && u[0] != '+' by {
      assert u[0] == d[0];
    }
    if sign == "" {
      assert sign + d + rest == u;
    } else {
      var t := sign + u;
      assert sign + d + rest == t;
      assert t[1..] == u;
    }
  }

  /** Reading stops at the first character that is not a digit: "50%" reads as 50. */
  lemma WtoiStopsAtNonDigit()
    ensures Wtoi("50%") == 50
    ensures Wtoi(" \t+50") == 50
  {
    assert Decimal(50) == "50";
    WtoiReads("", "", 50, "%");
    assert "" + ("" + "50" + "%") == "50%";
    WtoiReads(" \t", "+", 50, "");
    assert " \t" + ("+" + "50" + "") == " \t+50";
  }

  /** A numeral beyond the 32-bit range reads as INT_MAX, or INT_MIN after a minus sign. */
  lemma WtoiSaturates(n: nat)
    requires n > INT_MAX
    ensures Wtoi(Decimal(n)) == INT_MAX
    ensures Wtoi("-" + Decimal(n)) == INT_MIN
  {
    WtoiSignedDigits("", n, "");
    assert "" + Decimal(n) + "" == Decimal(n);
    WtoiSignedDigits("-", n, "");
    assert "-" + Decimal(n) + "" == "-" + Decimal(n);
  }

  lemma {:induction false} DropLeadingSpaces(ws: string, t: string)
    requires forall k :: 0 <= k < |ws| ==> IsSpace(ws[k])
    requires t == [] || !IsSpace(t[0])
    ensures DropSpaces(ws + t) == t
  {
    if ws == [] {
      assert ws + t == t;
    } else {
      assert (ws + t)[1..] == ws[1..] + t;
      DropLeadingSpaces(ws[1..], t);
    }
  }

  lemma {:induction false} DigitRunThenOther(d: string, rest: string)
    requires forall k :: 0 <= k < |d| ==> IsDigit(d[k])
    requires rest == [] || !IsDigit(rest[0])
    ensures DigitRun(d + rest) == |d|
  {
    if d == [] {
      assert d + rest == rest;
    } else {
      assert (d + rest)[1..] == d[1..] + rest;
      DigitRunThenOther(d[1..], rest);
    }
  }

  lemma {:induction false} DigitRunAllDigits(s: string)
    requires forall k :: 0 <= k < |s| ==> IsDigit(s[k])
    ensures DigitRun(s) == |s|
  {
    if s != [] {
      DigitRunAllDigits(s[1..]);
    }
  }
}
