/** src/utils/helpers.ts: the status colour map, order numbers, and the e-mail
    and phone regular expressions. The clock and the random number generator
    are inputs. */
module Helpers {
  import opened Wrappers
  import opened Text

  /** `getOrderStatusColor`: its switch, including the default for any other string. */
  function GetOrderStatusColor(status: string): string {
    if status == "DELIVERED" then "text-green-600 bg-green-100"
    else if status == "SHIPPED" then "text-blue-600 bg-blue-100"
    else if status == "CONFIRMED" || status == "PACKED" then "text-yellow-600 bg-yellow-100"
    else if status == "PLACED" then "text-gray-600 bg-gray-100"
    else if status == "CANCELLED" then "text-red-600 bg-red-100"
    else "text-gray-600 bg-gray-100"
  }

  /** CONFIRMED and PACKED share the yellow class; PLACED gets the gray that
      every string outside the six statuses also gets. */
  lemma OrderStatusColorClasses(status: string)
    ensures GetOrderStatusColor("CONFIRMED") == GetOrderStatusColor("PACKED") == "text-yellow-600 bg-yellow-100"
    ensures GetOrderStatusColor("PLACED") == "text-gray-600 bg-gray-100"
    ensures GetOrderStatusColor(status) == "text-gray-600 bg-gray-100" <==>
              status !in {"DELIVERED", "SHIPPED", "CONFIRMED", "PACKED", "CANCELLED"}
  {
  }

  /** `Math.floor(Math.random() * 1000)` for a draw `random` in [0, 1). */
  function RandomSuffix(random: real): (n: nat)
    requires 0.0 <= random < 1.0
    ensures n <= 999
    ensures n as real <= random * 1000.0 < n as real + 1.0
  {
    (random * 1000.0).Floor
  }

  /** `generateOrderNumber()` with `Date.now()` as `timestamp` and `Math.random()` as `random`. */
  function GenerateOrderNumber(timestamp: nat, random: real): (r: string)
    requires 0.0 <= random < 1.0
    ensures |r| == |NatToString(timestamp)| + 8
    ensures r[..4] == "ORD-" && r[4..|r| - 4] == NatToString(timestamp) && r[|r| - 4] == '-'
    ensures AllDigits(r[|r| - 3..]) && ParseNat(r[|r| - 3..]) == RandomSuffix(random)
  {
    var t := NatToString(timestamp);
    var n := RandomSuffix(random);
    var p := PadStart(NatToString(n), 3, '0');
    PadStartZerosKeepsValue(NatToString(n), 3);
    ParseNatToString(n);
    OrderNumberLayout(t, p);
    "ORD-" + t + "-" + p
  }

  lemma OrderNumberLayout(t: string, p: string)
    requires |p| == 3
    ensures var r := "ORD-" + t + "-" + p;
            |r| == |t| + 8 && r[..4] == "ORD-" && r[4..|r| - 4] == t && r[|r| - 4] == '-' && r[|r| - 3..] == p
  {
    var r := "ORD-" + t + "-" + p;
    assert r == ("ORD-" + t) + ("-" + p);
  }

  /** Reads an order number back into its timestamp and random suffix. */
  function ParseOrderNumber(s: string): Option<(nat, nat)> {
    if |s| >= 9 && s[..4] == "ORD-" && s[|s| - 4] == '-' && AllDigits(s[4..|s| - 4]) && AllDigits(s[|s| - 3..])
    then Some((ParseNat(s[4..|s| - 4]), ParseNat(s[|s| - 3..])))
    else None
  }

  /** An order number carries its timestamp and three-digit suffix recoverably. */
  lemma OrderNumberRoundTrip(timestamp: nat, random: real)
    requires 0.0 <= random < 1.0
    ensures ParseOrderNumber(GenerateOrderNumber(timestamp, random)) == Some((timestamp, RandomSuffix(random)))
  {
    ParseNatToString(timestamp);
  }

  /** Two order numbers are equal only when the clock and the suffix were. */
  lemma OrderNumberInjective(t1: nat, r1: real, t2: nat, r2: real)
    requires 0.0 <= r1 < 1.0 && 0.0 <= r2 < 1.0
    requires GenerateOrderNumber(t1, r1) == GenerateOrderNumber(t2, r2)
    ensures t1 == t2 && RandomSuffix(r1) == RandomSuffix(r2)
  {
    OrderNumberRoundTrip(t1, r1);
    OrderNumberRoundTrip(t2, r2);
  }

  /** The class `[^\s@]`. */
  predicate EmailChar(c: char) {
    !IsWhitespace(c) && c != '@'
  }

  predicate EmailChars(s: string) {
    forall k :: 0 <= k < |s| ==> EmailChar(s[k])
  }

  /** `/^[^\s@]+@[^\s@]+\.[^\s@]+$/` read literally: three non-empty runs of
      the class, separated by "@" and ".". */
  ghost predicate EmailRegex(s: string) {
    exists i, j :: EmailSplit(s, i, j)
  }

  /** The pattern matches with its "@" at `i` and its "." at `j`. */
  predicate EmailSplit(s: string, i: int, j: int) {
    0 < i && i + 1 < j && j + 1 < |s| && s[i] == '@' && s[j] == '.' &&
    EmailChars(s[..i]) && EmailChars(s[i + 1..j]) && EmailChars(s[j + 1..])
  }

  /** A "." that is neither the first nor the last character. */
  predicate InteriorDot(d: string) {
    |d| >= 3 && '.' in d[1..|d| - 1]
  }

  /** `validateEmail`: no whitespace, exactly one "@" with something before
      it, and a "." inside what follows it. */
  predicate ValidateEmail(email: string) {
    (forall k :: 0 <= k < |email| ==> !IsWhitespace(email[k])) &&
    multiset(email)['@'] == 1 &&
    var at := IndexOf(email, '@');
    at > 0 && InteriorDot(email[at + 1..])
  }

  lemma NoAtInEmailChars(s: string)
    requires EmailChars(s)
    ensures multiset(s)['@'] == 0
  {
    assert '@' !in s;
  }

  lemma SingleAt(s: string, i: int)
    requires 0 <= i < |s| && s[i] == '@' && multiset(s)['@'] == 1
    ensures forall k :: 0 <= k < |s| && k != i ==> s[k] != '@'
  {
    assert s == s[..i] + [s[i]] + s[i + 1..];
    assert multiset(s)['@'] == multiset(s[..i])['@'] + 1 + multiset(s[i + 1..])['@'];
    forall k | 0 <= k < |s| && k != i ensures s[k] != '@' {
      if k < i { assert s[k] == s[..i][k]; } else { assert s[k] == s[i + 1..][k - i - 1]; }
    }
  }

  lemma EmailCharsSlice(s: string, a: int, b: int)
    requires 0 <= a <= b <= |s|
    requires forall k :: a <= k < b ==> EmailChar(s[k])
    ensures EmailChars(s[a..b])
  {
    forall k | 0 <= k < b - a ensures EmailChar(s[a..b][k]) {
      assert s[a..b][k] == s[a + k];
    }
  }

  lemma EmailCharsAt(s: string, a: int, b: int, k: int)
    requires 0 <= a <= k < b <= |s| && EmailChars(s[a..b])
    ensures EmailChar(s[k])
  {
    assert s[a..b][k - a] == s[k];
  }

  lemma SplitHasNoWhitespace(s: string, i: int, j: int)
    requires EmailSplit(s, i, j)
    ensures forall k :: 0 <= k < |s| ==> !IsWhitespace(s[k])
  {
    assert s[..i] == s[0..i] && s[j + 1..] == s[j + 1..|s|];
    forall k | 0 <= k < |s| ensures !IsWhitespace(s[k]) {
      if k < i { EmailCharsAt(s, 0, i, k); }
      else if i < k < j { EmailCharsAt(s, i + 1, j, k); }
      else if j < k { EmailCharsAt(s, j + 1, |s|, k); }
    }
  }

  lemma SplitHasOneAt(s: string, i: int, j: int)
    requires EmailSplit(s, i, j)
    ensures multiset(s)['@'] == 1
  {
    assert s == s[..i] + [s[i]] + s[i + 1..j] + [s[j]] + s[j + 1..];
    NoAtInEmailChars(s[..i]);
    NoAtInEmailChars(s[i + 1..j]);
    NoAtInEmailChars(s[j + 1..]);
  }

  lemma SplitAtIsFirst(s: string, i: int, j: int)
    requires EmailSplit(s, i, j)
    ensures IndexOf(s, '@') == i
  {
    var at := IndexOf(s, '@');
    assert '@' !in s[..i];
    assert forall k | 0 <= k < i :: s[..i][k] == s[k];
    assert forall k | 0 <= k < at :: s[..at][k] == s[k];
  }

  /** Every string the pattern matches passes `validateEmail`. */
  lemma RegexImpliesValidateEmail(s: string)
    requires EmailRegex(s)
    ensures ValidateEmail(s)
  {
    var i, j :| EmailSplit(s, i, j);
    SplitHasNoWhitespace(s, i, j);
    SplitHasOneAt(s, i, j);
    SplitAtIsFirst(s, i, j);
    var d := s[i + 1..];
    assert d[1..|d| - 1][j - i - 2] == '.';
  }

  /** Every string `validateEmail` accepts is matched by the pattern. */
  lemma ValidateEmailImpliesRegex(s: string)
    requires ValidateEmail(s)
    ensures EmailRegex(s)
  {
    var i := IndexOf(s, '@');
    var d := s[i + 1..];
    var m :| 0 <= m < |d[1..|d| - 1]| && d[1..|d| - 1][m] == '.';
    var j := i + 2 + m;
    assert s[j] == '.';
    SingleAt(s, i);
    EmailCharsSlice(s, 0, i);
    EmailCharsSlice(s, i + 1, j);
    EmailCharsSlice(s, j + 1, |s|);
    assert s[..i] == s[0..i] && s[j + 1..] == s[j + 1..|s|];
    assert EmailSplit(s, i, j);
  }

  /** The characterisation is the regular expression: `validateEmail` accepts
      exactly the strings the pattern matches. */
  lemma ValidateEmailIsRegex(s: string)
    ensures ValidateEmail(s) <==> EmailRegex(s)
  {
    if EmailRegex(s) { RegexImpliesValidateEmail(s); }
    if ValidateEmail(s) { ValidateEmailImpliesRegex(s); }
  }

  /** The empty string is not an e-mail address. */
  lemma EmptyIsNotEmail()
    ensures !ValidateEmail("")
  {
  }

  /** The class `[\d\s-()]`: digits, whitespace, "-", "(" and ")". */
  predicate PhoneChar(c: char) {
    IsDigit(c) || IsWhitespace(c) || c == '-' || c == '(' || c == ')'
  }

  predicate PhoneChars(s: string) {
    forall k :: 0 <= k < |s| ==> PhoneChar(s[k])
  }

  /** `validatePhone`: after one optional leading "+", at least ten
      characters, all of the class. */
  predicate ValidatePhone(phone: string) {
    var rest := if |phone| > 0 && phone[0] == '+' then phone[1..] else phone;
    |rest| >= 10 && PhoneChars(rest)
  }

  /** `/^\+?[\d\s-()]{10,}$/` read literally: either alternative of the optional "+". */
  predicate PhoneRegex(s: string) {
    (|s| >= 10 && PhoneChars(s)) || (|s| >= 11 && s[0] == '+' && PhoneChars(s[1..]))
  }

  /** Taking the "+" whenever it is there is the same as trying both
      alternatives, because "+" is not in the class. */
  lemma ValidatePhoneIsRegex(s: string)
    ensures ValidatePhone(s) <==> PhoneRegex(s)
  {
    if |s| > 0 && s[0] == '+' {
      assert !PhoneChar(s[0]);
    }
  }
}
