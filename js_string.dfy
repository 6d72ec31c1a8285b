/**
  The JavaScript string operations the scripts rely on (trim, toUpperCase,
  toLowerCase, includes, join, and the decimal text of an integer), over
  sequences of characters.
 */
module JsString {

  /**
    The characters String.prototype.trim removes: the WhiteSpace and
    LineTerminator code points of ECMA-262 (sections 12.2 and 12.3).
   */
  predicate IsWhitespace(c: char)
  {
    c == '\t' || c == '\n' || c == '\U{000B}' || c == '\U{000C}' || c == '\r' || c == ' ' ||
    c == '\U{00A0}' || c == '\U{1680}' || ('\U{2000}' <= c <= '\U{200A}') ||
    c == '\U{2028}' || c == '\U{2029}' || c == '\U{202F}' || c == '\U{205F}' ||
    c == '\U{3000}' || c == '\U{FEFF}'
  }

  predicate AllWhitespace(s: string)
  {
    forall i :: 0 <= i < |s| ==> IsWhitespace(s[i])
  }

  /** The number of whitespace characters s starts with. */
  function LeadingWhitespace(s: string): (n: nat)
    ensures n <= |s|
    ensures forall i :: 0 <= i < n ==> IsWhitespace(s[i])
    ensures n == |s| || !IsWhitespace(s[n])
  {
    if s != [] && IsWhitespace(s[0]) then
      var n := LeadingWhitespace(s[1..]);
      assert forall i :: 0 < i <= n ==> s[i] == s[1..][i - 1];
      n + 1
    else 0
  }

  /** The number of whitespace characters s ends with. */
  function TrailingWhitespace(s: string): (n: nat)
    ensures n <= |s|
    ensures forall i :: |s| - n <= i < |s| ==> IsWhitespace(s[i])
    ensures n == |s| || !IsWhitespace(s[|s| - n - 1])
  {
    if s != [] && IsWhitespace(s[|s| - 1]) then
      var n := TrailingWhitespace(s[..|s| - 1]);
      assert forall i :: |s| - 1 - n <= i < |s| - 1 ==> s[i] == s[..|s| - 1][i];
      n + 1
    else 0
  }

  /** The longest suffix of s that does not start with whitespace. */
  function TrimStart(s: string): (r: string)
    ensures |r| <= |s| && r == s[|s| - |r|..]
    ensures AllWhitespace(s[..|s| - |r|])
    ensures r == [] || !IsWhitespace(r[0])
  {
    s[LeadingWhitespace(s)..]
  }

  /** The longest prefix of s that does not end with whitespace. */
  function TrimEnd(s: string): (r: string)
    ensures |r| <= |s| && r == s[..|r|]
    ensures AllWhitespace(s[|r|..])
    ensures r == [] || !IsWhitespace(r[|r| - 1])
  {
    s[..|s| - TrailingWhitespace(s)]
  }

  /** String.prototype.trim: whitespace removed from both ends. */
  function Trim(s: string): (r: string)
    ensures |r| <= |s|
    ensures r == [] || (!IsWhitespace(r[0]) && !IsWhitespace(r[|r| - 1]))
    ensures exists a, b :: 0 <= a <= b <= |s| && r == s[a..b] && AllWhitespace(s[..a]) && AllWhitespace(s[b..])
  {
    var t := TrimStart(s);
    var r := TrimEnd(t);
    var a := |s| - |t|;
    assert r == s[a..a + |r|] && s[a + |r|..] == t[|r|..];
    r
  }

  /** A string with no whitespace at either end trims to itself. */
  lemma TrimKeeps(s: string)
    requires s != [] && !IsWhitespace(s[0]) && !IsWhitespace(s[|s| - 1])
    ensures Trim(s) == s
  {
    assert TrimStart(s) == s;
  }

  /** A string trims to nothing exactly when it is all whitespace. */
  lemma TrimEmptyIff(s: string)
    ensures Trim(s) == [] <==> AllWhitespace(s)
  {
    var t := TrimStart(s);
    if Trim(s) == [] {
      assert t[|Trim(s)|..] == t;
      assert t == [];
      assert s[..|s| - |t|] == s;
    }
  }

  /** The ASCII lower-case letter of an upper-case one; every other character unchanged. */
  function LowerChar(c: char): char
  {
    if 'A' <= c <= 'Z' then (c as int + 32) as char else c
  }

  /** The ASCII upper-case letter of a lower-case one; every other character unchanged. */
  function UpperChar(c: char): char
  {
    if 'a' <= c <= 'z' then (c as int - 32) as char else c
  }

  /** String.prototype.toLowerCase, on ASCII letters. */
  function ToLower(s: string): string
  {
    seq(|s|, i requires 0 <= i < |s| => LowerChar(s[i]))
  }

  /** String.prototype.toUpperCase, on ASCII letters. */
  function ToUpper(s: string): string
  {
    seq(|s|, i requires 0 <= i < |s| => UpperChar(s[i]))
  }

  /**
    Case-insensitive equality, stated character by character without
    going through either case conversion of strings.
   */
  predicate SameIgnoringCase(a: string, b: string)
  {
    |a| == |b| && forall i :: 0 <= i < |a| ==> LowerChar(a[i]) == LowerChar(b[i])
  }

  /** Upper-casing a lower-cased string gives the upper-cased original. */
  lemma UpperOfLower(s: string)
    ensures ToUpper(ToLower(s)) == ToUpper(s)
  {
    var l := ToLower(s);
    forall i | 0 <= i < |s| ensures ToUpper(l)[i] == ToUpper(s)[i] {
      assert l[i] == LowerChar(s[i]);
    }
  }

  /**
    Comparing the upper-cased string with a constant written in upper case
    is case-insensitive equality with that constant.
   */
  lemma UpperEqualsIff(a: string, b: string)
    requires ToUpper(b) == b
    ensures ToUpper(a) == b <==> SameIgnoringCase(a, b)
  {
    if |a| == |b| {
      forall i | 0 <= i < |a|
        ensures UpperChar(a[i]) == b[i] <==> LowerChar(a[i]) == LowerChar(b[i])
      {
        assert UpperChar(b[i]) == ToUpper(b)[i];
      }
      if SameIgnoringCase(a, b) {
        forall i | 0 <= i < |a| ensures ToUpper(a)[i] == b[i] {
        }
      }
      if ToUpper(a) == b {
        forall i | 0 <= i < |a| ensures LowerChar(a[i]) == LowerChar(b[i]) {
          assert UpperChar(a[i]) == ToUpper(a)[i];
        }
      }
    }
  }

  predicate StartsWith(s: string, prefix: string)
  {
    |prefix| <= |s| && s[..|prefix|] == prefix
  }

  /** String.prototype.includes: sub occurs somewhere in s. */
  predicate Includes(s: string, sub: string)
    decreases |s|
  {
    StartsWith(s, sub) || (s != [] && Includes(s[1..], sub))
  }

  /** sub occurs in s starting at position i. */
  predicate OccursAt(s: string, sub: string, i: int)
  {
    0 <= i && i + |sub| <= |s| && s[i..i + |sub|] == sub
  }

  /** Includes agrees with the definition by an occurrence position. */
  lemma {:induction false} IncludesIff(s: string, sub: string)
    ensures Includes(s, sub) <==> exists i :: OccursAt(s, sub, i)
    decreases |s|
  {
    if StartsWith(s, sub) {
      assert OccursAt(s, sub, 0);
    } else if s == [] {
    } else {
      IncludesIff(s[1..], sub);
      if Includes(s[1..], sub) {
        var i :| OccursAt(s[1..], sub, i);
        assert s[i + 1..i + 1 + |sub|] == s[1..][i..i + |sub|];
        assert OccursAt(s, sub, i + 1);
      }
      if exists i :: OccursAt(s, sub, i) {
        var i :| OccursAt(s, sub, i);
        assert i != 0;
        assert s[1..][i - 1..i - 1 + |sub|] == s[i..i + |sub|];
        assert OccursAt(s[1..], sub, i - 1);
      }
    }
  }

  /** Nothing longer than s occurs in s. */
  lemma NotIncludesLonger(s: string, sub: string)
    requires |sub| > |s|
    ensures !Includes(s, sub)
  {
  }

  predicate IsDigit(c: char)
  {
    '0' <= c <= '9'
  }

  predicate AllDigits(s: string)
  {
    forall i :: 0 <= i < |s| ==> IsDigit(s[i])
  }

  /**
    The decimal text of a natural number, most significant digit first,
    without leading zeros: only zero itself starts with '0'.
   */
  function NatToString(n: nat): (r: string)
    ensures r != [] && AllDigits(r)
    ensures |r| == 1 || r[0] != '0'
    ensures n > 0 ==> r[0] != '0'
    decreases n
  {
    if n < 10 then ["0123456789"[n]] else NatToString(n / 10) + ["0123456789"[n % 10]]
  }

  /** The value of a string of decimal digits. */
  function DigitsValue(s: string): nat
    requires AllDigits(s)
  {
    if s == [] then 0 else DigitsValue(s[..|s| - 1]) * 10 + (s[|s| - 1] as int - '0' as int)
  }

  /** Reading back the decimal text of n gives n. */
  lemma {:induction false} NatToStringRoundTrip(n: nat)
    ensures DigitsValue(NatToString(n)) == n
    decreases n
  {
    var s := NatToString(n);
    if n >= 10 {
      NatToStringRoundTrip(n / 10);
      assert s[..|s| - 1] == NatToString(n / 10);
    }
  }

  /** Distinct numbers have distinct decimal texts. */
  lemma NatToStringInjective(a: nat, b: nat)
    requires NatToString(a) == NatToString(b)
    ensures a == b
  {
    NatToStringRoundTrip(a);
    NatToStringRoundTrip(b);
  }

  /** Integer text: decimal digits, possibly after a minus sign. */
  predicate IsIntText(s: string)
  {
    (s != [] && AllDigits(s)) || (|s| > 1 && s[0] == '-' && AllDigits(s[1..]))
  }

  /** The value of integer text. */
  function IntValue(s: string): int
    requires IsIntText(s)
  {
    if AllDigits(s) then DigitsValue(s) else 0 - DigitsValue(s[1..]) as int
  }

  /** The text of an integer-valued JavaScript number: decimal, with a minus sign when negative. */
  function IntToString(n: int): (r: string)
    ensures r != []
  {
    if n < 0 then "-" + NatToString(-n) else NatToString(n)
  }

  /**
    The text of an integer is integer text, it starts with a minus sign
    exactly when the integer is negative, its digits have no leading zero
    (so "-0" never appears), and it reads back as the integer.
   */
  lemma IntToStringRoundTrip(n: int)
    ensures var r := IntToString(n);
      && IsIntText(r) && (r[0] == '-' <==> n < 0) && IntValue(r) == n
      && (n >= 0 ==> |r| == 1 || r[0] != '0')
      && (n < 0 ==> r[1] != '0')
  {
    var r := IntToString(n);
    if n < 0 {
      assert IsIntText(r) && r[0] == '-' && IntValue(r) == n && r[1] != '0' by {
        assert r == "-" + NatToString(-n);
        NegativeIntText(n);
      }
    } else {
      assert IsIntText(r) && IsDigit(r[0]) && IntValue(r) == n && (|r| == 1 || r[0] != '0') by {
        assert r == NatToString(n);
        NonNegativeIntText(n);
      }
    }
  }

  /** The text of a non-negative integer, as IntToString builds it, reads back as that integer. */
  lemma NonNegativeIntText(m: nat)
    ensures var r := NatToString(m);
      AllDigits(r) && DigitsValue(r) == m && IsIntText(r) && IntValue(r) == m
  {
    NatToStringRoundTrip(m);
  }

  /** The text of a negative integer, as IntToString builds it, reads back as that integer. */
  lemma NegativeIntText(n: int)
    requires n < 0
    ensures var r := "-" + NatToString(-n);
      && r[0] == '-' && AllDigits(r[1..]) && DigitsValue(r[1..]) == -n && IsIntText(r) && IntValue(r) == n
      && r[1] != '0'
  {
    NatToStringRoundTrip(-n);
    MinusDigits(NatToString(-n));
  }

  /** A minus sign before digits is integer text whose value is minus theirs. */
  lemma MinusDigits(d: string)
    requires d != [] && AllDigits(d)
    ensures var r := "-" + d;
      r[1..] == d && IsIntText(r) && IntValue(r) == -(DigitsValue(d) as int)
  {
    var r := "-" + d;
    assert r[1..] == d;
    assert !IsDigit(r[0]);
  }

  /** Array.prototype.join over strings. */
  function Join(xs: seq<string>, sep: string): string
  {
    if |xs| == 0 then "" else if |xs| == 1 then xs[0] else xs[0] + sep + Join(xs[1..], sep)
  }

  /**
    With a non-empty separator, a join is empty exactly when there is
    nothing to join or a single empty string.
   */
  lemma JoinEmptyIff(xs: seq<string>, sep: string)
    requires sep != ""
    ensures Join(xs, sep) == "" <==> (xs == [] || xs == [""])
  {
    if |xs| >= 2 {
      assert |Join(xs, sep)| >= |sep|;
    }
  }
}
