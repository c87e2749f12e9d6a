/** The few JavaScript string primitives the storefront's rules are built on:
    the whitespace class shared by `\s` and `String.prototype.trim`, `trim`,
    `Array.prototype.indexOf`, `Number.prototype.toString` for integers and
    `padStart`. */
module Text {

  /** A code point in ECMAScript's WhiteSpace or LineTerminator productions:
      what the regular-expression class `\s` matches and what `trim` strips. */
  predicate IsWhitespace(c: char) {
    var n := c as int;
    n == 0x09 || n == 0x0A || n == 0x0B || n == 0x0C || n == 0x0D || n == 0x20 ||
    n == 0xA0 || n == 0x1680 || (0x2000 <= n <= 0x200A) || n == 0x2028 || n == 0x2029 ||
    n == 0x202F || n == 0x205F || n == 0x3000 || n == 0xFEFF
  }

  predicate AllWhitespace(s: string) {
    forall i :: 0 <= i < |s| ==> IsWhitespace(s[i])
  }

  /** How many UTF-16 code units encode `c`: two for a character outside the
      Basic Multilingual Plane (a surrogate pair), one otherwise. */
  function CodeUnits(c: char): nat {
    if c as int > 0xFFFF then 2 else 1
  }

  /** `String.prototype.length`: the number of UTF-16 code units of `s`,
      which is at least its number of characters and at most twice that. */
  function Utf16Length(s: string): (n: nat)
    ensures |s| <= n <= 2 * |s|
    ensures s == [] <==> n == 0
  {
    if s == [] then 0 else CodeUnits(s[0]) + Utf16Length(s[1..])
  }

  /** Lengths add up over concatenation. */
  lemma {:induction false} Utf16LengthConcat(a: string, b: string)
    ensures Utf16Length(a + b) == Utf16Length(a) + Utf16Length(b)
    decreases |a|
  {
    if a == [] {
      assert a + b == b;
    } else {
      assert (a + b)[0] == a[0];
      assert (a + b)[1..] == a[1..] + b;
      Utf16LengthConcat(a[1..], b);
    }
  }

  /** Within the Basic Multilingual Plane `length` is the number of characters. */
  lemma {:induction false} BmpLengthIsSize(s: string)
    requires forall i :: 0 <= i < |s| ==> s[i] as int <= 0xFFFF
    ensures Utf16Length(s) == |s|
    decreases |s|
  {
    if s != [] {
      BmpLengthIsSize(s[1..]);
    }
  }

  /** Outside it the two counts part: three emoji after "Ab1" make six
      characters but nine code units. */
  lemma AstralCharactersCountTwice()
    ensures |"Ab1\U{1F600}\U{1F600}\U{1F600}"| == 6
    ensures Utf16Length("Ab1\U{1F600}\U{1F600}\U{1F600}") == 9
  {
  }

  /** Drops leading whitespace: what is left is a suffix of `s` that is empty
      or starts with a non-whitespace character, and what was dropped is blank. */
  function TrimStart(s: string): (r: string)
    ensures |r| <= |s| && r == s[|s| - |r|..]
    ensures AllWhitespace(s[..|s| - |r|])
    ensures r != [] ==> !IsWhitespace(r[0])
  {
    if |s| > 0 && IsWhitespace(s[0]) then TrimStart(s[1..]) else s
  }

  /** Drops trailing whitespace: the mirror image of TrimStart. */
  function TrimEnd(s: string): (r: string)
    ensures |r| <= |s| && r == s[..|r|]
    ensures AllWhitespace(s[|r|..])
    ensures r != [] ==> !IsWhitespace(r[|r| - 1])
  {
    if |s| > 0 && IsWhitespace(s[|s| - 1]) then
      var p := s[..|s| - 1];
      var r := TrimEnd(p);
      assert p[..|r|] == s[..|r|];
      assert s[|r|..] == p[|r|..] + [s[|s| - 1]];
      r
    else s
  }

  /** `s.trim()`: the slice of `s` between its leading and trailing whitespace. */
  function Trim(s: string): (r: string)
    ensures exists i, j :: 0 <= i <= j <= |s| && r == s[i..j] && AllWhitespace(s[..i]) && AllWhitespace(s[j..])
    ensures r != [] ==> !IsWhitespace(r[0]) && !IsWhitespace(r[|r| - 1])
  {
    var t := TrimStart(s);
    var r := TrimEnd(t);
    var i := |s| - |t|;
    assert r == s[i..i + |r|];
    assert s[i + |r|..] == t[|r|..];
    r
  }

  /** A string trims to nothing exactly when every character of it is whitespace. */
  lemma {:induction false} TrimEmptyIffBlank(s: string)
    ensures Trim(s) == "" <==> AllWhitespace(s)
  {
    var t := TrimStart(s);
    if AllWhitespace(s) {
      BlankTrimsToNothing(s);
    } else {
      var k :| 0 <= k < |s| && !IsWhitespace(s[k]);
      var d := |s| - |t|;
      assert forall i | 0 <= i < d :: s[..d][i] == s[i];
      assert t != [] && !IsWhitespace(t[0]);
      assert !AllWhitespace(t[0..]);
    }
  }

  lemma {:induction false} BlankTrimsToNothing(s: string)
    requires AllWhitespace(s)
    ensures TrimStart(s) == ""
    ensures Trim(s) == ""
  {
    if |s| > 0 {
      assert IsWhitespace(s[0]);
      BlankTrimsToNothing(s[1..]);
    }
  }

  /** Trimming a trimmed string changes nothing. */
  lemma TrimIdempotent(s: string)
    ensures Trim(Trim(s)) == Trim(s)
  {
    var r := Trim(s);
    if r != [] {
      assert !IsWhitespace(r[0]) && !IsWhitespace(r[|r| - 1]);
      assert TrimStart(r) == r;
      assert TrimEnd(r) == r;
    }
  }

  /** `array.indexOf(x)`: the first position holding `x`, or -1 when there is none. */
  function IndexOf<T(==)>(s: seq<T>, x: T): (i: int)
    ensures -1 <= i < |s|
    ensures i == -1 <==> x !in s
    ensures 0 <= i ==> s[i] == x && x !in s[..i]
  {
    if |s| == 0 then -1
    else if s[0] == x then 0
    else
      var j := IndexOf(s[1..], x);
      assert s[1..] == s[..|s|][1..];
      if j == -1 then -1
      else
        assert s[..j + 1] == [s[0]] + s[1..][..j];
        j + 1
  }

  predicate IsDigit(c: char) {
    '0' <= c <= '9'
  }

  predicate AllDigits(s: string) {
    forall i :: 0 <= i < |s| ==> IsDigit(s[i])
  }

  function DigitChar(d: nat): (c: char)
    requires d < 10
    ensures IsDigit(c)
  {
    ('0' as int + d) as char
  }

  function DigitValue(c: char): (d: nat)
    requires IsDigit(c)
    ensures d < 10 && DigitChar(d) == c
  {
    c as int - '0' as int
  }

  /** `n.toString()` for a non-negative integer: its decimal digits, most
      significant first, with no leading zero unless `n` is 0. */
  function NatToString(n: nat): (s: string)
    ensures |s| >= 1 && AllDigits(s)
    ensures |s| > 1 ==> s[0] != '0'
    ensures n < 10 <==> |s| == 1
    ensures n < 1000 ==> |s| <= 3
  {
    if n < 10 then [DigitChar(n)]
    else
      var p := NatToString(n / 10);
      p + [DigitChar(n % 10)]
  }

  /** `n.toString()` for any integer: a minus sign before the digits of a negative one. */
  function IntToString(n: int): (s: string)
    ensures |s| >= 1
    ensures n >= 0 ==> s == NatToString(n)
    ensures n < 0 ==> s[0] == '-' && s[1..] == NatToString(-n)
  {
    if n >= 0 then NatToString(n) else "-" + NatToString(-n)
  }

  /** The value of a string of decimal digits, read most significant first. */
  function ParseNat(s: string): nat
    requires AllDigits(s)
  {
    if s == [] then 0 else ParseNat(s[..|s| - 1]) * 10 + DigitValue(s[|s| - 1])
  }

  /** Reading back what NatToString printed gives the number printed. */
  lemma {:induction false} ParseNatToString(n: nat)
    ensures ParseNat(NatToString(n)) == n
  {
    var s := NatToString(n);
    if n >= 10 {
      assert s[..|s| - 1] == NatToString(n / 10);
      ParseNatToString(n / 10);
    }
  }

  /** Leading zeros do not change the value read. */
  lemma {:induction false} ParseNatLeadingZero(s: string)
    requires AllDigits(s)
    ensures AllDigits("0" + s) && ParseNat("0" + s) == ParseNat(s)
  {
    var z := "0" + s;
    assert AllDigits(z) by {
      forall i | 0 <= i < |z| ensures IsDigit(z[i]) {
        if i > 0 { assert z[i] == s[i - 1]; }
      }
    }
    if s != [] {
      assert z[..|z| - 1] == "0" + s[..|s| - 1];
      assert z[|z| - 1] == s[|s| - 1];
      ParseNatLeadingZero(s[..|s| - 1]);
    }
  }

  /** `s.padStart(width, c)`: `s` itself when it is already wide enough,
      otherwise `s` prefixed with copies of `c` up to exactly `width` characters. */
  function PadStart(s: string, width: nat, c: char): (r: string)
    ensures |r| == if |s| >= width then |s| else width
    ensures r[|r| - |s|..] == s
    ensures forall i :: 0 <= i < |r| - |s| ==> r[i] == c
    decreases width - |s|
  {
    if |s| >= width then s else PadStart([c] + s, width, c)
  }

  /** Zero-padding a digit string keeps its value. */
  lemma {:induction false} PadStartZerosKeepsValue(s: string, width: nat)
    requires AllDigits(s)
    ensures AllDigits(PadStart(s, width, '0'))
    ensures ParseNat(PadStart(s, width, '0')) == ParseNat(s)
    decreases width - |s|
  {
    if |s| < width {
      ParseNatLeadingZero(s);
      assert "0" + s == ['0'] + s;
      PadStartZerosKeepsValue(['0'] + s, width);
    }
  }
}
