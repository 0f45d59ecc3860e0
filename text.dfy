/**
 * The few JavaScript string behaviours the modelled code relies on:
 * truthiness of an optional string, `${n}` for an integer, an ASCII
 * `toUpperCase`, and a substring test used to state what a reply contains.
 */
module Text {
  import opened Wrappers

  /** JavaScript truthiness of a value that is either undefined or a string. */
  predicate Truthy(s: Option<string>) {
    s.Some? && s.value != ""
  }

  /** `s || fallback` for an optional string. */
  function OrElse(s: Option<string>, fallback: string): (r: string)
    ensures Truthy(s) ==> r == s.value
    ensures !Truthy(s) ==> r == fallback
  {
    if Truthy(s) then s.value else fallback
  }

  /** Keeps a string only when it is truthy, so that `a || b || null` becomes a first-present search. */
  function WhenTruthy(s: Option<string>): (r: Option<string>)
    ensures r.Some? <==> Truthy(s)
    ensures r.Some? ==> r == s
  {
    if Truthy(s) then s else None
  }

  /** What a template literal prints for a possibly undefined string field. */
  function Interpolate(s: Option<string>): string {
    match s
    case Some(v) => v
    case None => "undefined"
  }

  // ---------------------------------------------------------------------
  // Decimal rendering of integers, as `${n}` prints them.
  // ---------------------------------------------------------------------

  predicate IsDigit(c: char) {
    '0' <= c <= '9'
  }

  function DigitChar(d: nat): (c: char)
    requires d < 10
    ensures IsDigit(c) && c as int == '0' as int + d
  {
    "0123456789"[d]
  }

  /** The number a decimal digit stands for. */
  function DigitValue(c: char): (d: nat)
    requires IsDigit(c)
    ensures d < 10
  {
    c as int - '0' as int
  }

  /**
   * The number a string of decimal digits denotes, read from the left:
   * each further digit multiplies what was read so far by ten. This is the
   * reference reading against which `NatToString` is proved.
   */
  function DecimalValue(s: string): nat
    requires forall i :: 0 <= i < |s| ==> IsDigit(s[i])
  {
    if s == [] then 0 else 10 * DecimalValue(s[..|s| - 1]) + DigitValue(s[|s| - 1])
  }

  /** `${n}` for a natural: decimal digits, with no leading zero. */
  function NatToString(n: nat): (r: string)
    ensures |r| >= 1
    ensures forall i :: 0 <= i < |r| ==> IsDigit(r[i])
    ensures n < 10 <==> |r| == 1
    ensures r[0] == '0' <==> n == 0
    decreases n
  {
    if n < 10 then [DigitChar(n)] else NatToString(n / 10) + [DigitChar(n % 10)]
  }

  /** `${n}` for an integer: a minus sign before the digits of `-n` when `n` is negative. */
  function IntToString(n: int): (r: string)
    ensures |r| >= 1
    ensures n >= 0 ==> forall i :: 0 <= i < |r| ==> IsDigit(r[i])
    ensures n >= 0 ==> (r[0] == '0' <==> n == 0)
    ensures n < 0 ==> r[0] == '-' && |r| >= 2
    ensures n < 0 ==> forall i :: 1 <= i < |r| ==> IsDigit(r[i])
    ensures n < 0 ==> r[1] != '0'
  {
    if n >= 0 then NatToString(n) else "-" + NatToString(-n)
  }

  /** The digits `NatToString` prints denote the number printed. */
  lemma {:induction false} NatToStringValue(n: nat)
    ensures DecimalValue(NatToString(n)) == n
    decreases n
  {
    var r := NatToString(n);
    if n < 10 {
      assert r[..0] == [];
    } else {
      assert r[..|r| - 1] == NatToString(n / 10);
      NatToStringValue(n / 10);
    }
  }

  /** A digit string that does not start with `0` denotes a positive number. */
  lemma {:induction false} LeadingDigitPositive(s: string)
    requires |s| >= 1 && s[0] != '0'
    requires forall i :: 0 <= i < |s| ==> IsDigit(s[i])
    ensures DecimalValue(s) > 0
    decreases |s|
  {
    var t := s[..|s| - 1];
    if |s| == 1 {
      assert t == [];
    } else {
      assert t[0] == s[0];
      LeadingDigitPositive(t);
    }
  }

  /**
   * `${n}` is the only digit string without a leading zero that denotes `n`:
   * printing the value such a string denotes gives the string back.
   */
  lemma {:induction false} NatToStringCanonical(s: string)
    requires |s| >= 1 && (|s| > 1 ==> s[0] != '0')
    requires forall i :: 0 <= i < |s| ==> IsDigit(s[i])
    ensures NatToString(DecimalValue(s)) == s
    decreases |s|
  {
    var t, c := s[..|s| - 1], s[|s| - 1];
    if |s| == 1 {
      assert t == [];
      assert NatToString(DecimalValue(s)) == [DigitChar(DigitValue(c))];
    } else {
      assert t[0] == s[0];
      LeadingDigitPositive(t);
      NatToStringCanonical(t);
      var v := DecimalValue(t);
      assert DecimalValue(s) / 10 == v && DecimalValue(s) % 10 == DigitValue(c);
      assert s == t + [c];
    }
  }

  /** The digits `IntToString` prints, after the sign, denote the magnitude of the number. */
  lemma IntToStringValue(n: int)
    ensures n >= 0 ==> DecimalValue(IntToString(n)) == n
    ensures n < 0 ==> DecimalValue(IntToString(n)[1..]) == -n
  {
    if n >= 0 {
      NatToStringValue(n);
    } else {
      assert IntToString(n)[1..] == NatToString(-n);
      NatToStringValue(-n);
    }
  }

  lemma DigitCharInjective(a: nat, b: nat)
    requires a < 10 && b < 10 && DigitChar(a) == DigitChar(b)
    ensures a == b
  {
  }

  /** Distinct naturals print differently. */
  lemma {:induction false} NatToStringInjective(a: nat, b: nat)
    requires NatToString(a) == NatToString(b)
    ensures a == b
    decreases a
  {
    var sa, sb := NatToString(a), NatToString(b);
    if a < 10 || b < 10 {
      assert |sa| == 1 && |sb| == 1;
      DigitCharInjective(a, b);
    } else {
      assert sa[|sa| - 1] == DigitChar(a % 10) && sb[|sb| - 1] == DigitChar(b % 10);
      DigitCharInjective(a % 10, b % 10);
      assert sa[..|sa| - 1] == NatToString(a / 10);
      assert sb[..|sb| - 1] == NatToString(b / 10);
      NatToStringInjective(a / 10, b / 10);
    }
  }

  /** Distinct integers print differently. */
  lemma IntToStringInjective(a: int, b: int)
    requires IntToString(a) == IntToString(b)
    ensures a == b
  {
    var s := IntToString(a);
    if a >= 0 && b >= 0 {
      NatToStringInjective(a, b);
    } else if a < 0 && b < 0 {
      assert s[1..] == NatToString(-a) && s[1..] == NatToString(-b);
      NatToStringInjective(-a, -b);
    }
  }

  /** Distinct integers printed after the same prefix stay distinct. */
  lemma PrefixedIntInjective(prefix: string, a: int, b: int)
    requires prefix + IntToString(a) == prefix + IntToString(b)
    ensures a == b
  {
    assert (prefix + IntToString(a))[|prefix|..] == IntToString(a);
    assert (prefix + IntToString(b))[|prefix|..] == IntToString(b);
    IntToStringInjective(a, b);
  }

  // ---------------------------------------------------------------------
  // Upper-casing (ASCII letters; the only strings upper-cased are ASCII).
  // ---------------------------------------------------------------------

  function UpperChar(c: char): (u: char)
    ensures 'a' <= c <= 'z' ==> u as int == c as int - 32
    ensures !('a' <= c <= 'z') ==> u == c
  {
    if 'a' <= c <= 'z' then (c as int - 32) as char else c
  }

  function ToUpperAscii(s: string): (r: string)
    ensures |r| == |s|
    ensures forall i :: 0 <= i < |s| ==> r[i] == UpperChar(s[i])
  {
    if s == [] then [] else [UpperChar(s[0])] + ToUpperAscii(s[1..])
  }

  /** `s.endsWith(suffix)`. */
  predicate EndsWith(s: string, suffix: string) {
    |suffix| <= |s| && s[|s| - |suffix|..] == suffix
  }

  // ---------------------------------------------------------------------
  // Substring test.
  // ---------------------------------------------------------------------

  /** `sub` occurs somewhere in `s`: the device for stating what a filled template contains. */
  predicate IsInfix(sub: string, s: string)
    decreases |s|
  {
    sub <= s || (|s| > 0 && IsInfix(sub, s[1..]))
  }

  lemma {:induction false} InfixOfConcat(a: string, x: string, b: string)
    ensures IsInfix(x, a + x + b)
    decreases |a|
  {
    if a == [] {
      assert a + x + b == x + b;
    } else {
      InfixOfConcat(a[1..], x, b);
      assert (a + x + b)[1..] == a[1..] + x + b;
    }
  }

  /** An occurrence survives putting text in front. */
  lemma {:induction false} InfixExtendLeft(a: string, x: string, s: string)
    requires IsInfix(x, s)
    ensures IsInfix(x, a + s)
    decreases |a|
  {
    if a == [] {
      assert a + s == s;
    } else {
      InfixExtendLeft(a[1..], x, s);
      assert (a + s)[1..] == a[1..] + s;
    }
  }

  /** A template: its pieces laid end to end. */
  function Concat(parts: seq<string>): string {
    if parts == [] then "" else parts[0] + Concat(parts[1..])
  }

  /** Every piece of a template occurs in it. */
  lemma {:induction false} InfixOfPiece(parts: seq<string>, i: nat)
    requires i < |parts|
    ensures IsInfix(parts[i], Concat(parts))
    decreases |parts|
  {
    if i == 0 {
      InfixOfConcat("", parts[0], Concat(parts[1..]));
      assert "" + parts[0] + Concat(parts[1..]) == Concat(parts);
    } else {
      InfixOfPiece(parts[1..], i - 1);
      InfixExtendLeft(parts[0], parts[i], Concat(parts[1..]));
    }
  }
}
