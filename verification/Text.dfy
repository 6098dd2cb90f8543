/** String facts the identifiers rest on: stripping and decimal numerals. */
module Text {

  predicate Space(c: char) {
    c == ' ' || c == '\t' || c == '\n' || c == '\r'
  }

  predicate Stripped(s: string) {
    s == "" || (!Space(s[0]) && !Space(s[|s| - 1]))
  }

  function Strip(s: string): (r: string)
    ensures Stripped(r)
    ensures Stripped(s) ==> r == s
  {
    if s == "" then ""
    else if Space(s[0]) then Strip(s[1..])
    else if Space(s[|s| - 1]) then Strip(s[..|s| - 1])
    else s
  }

  /** Stripping takes white space off both ends and nothing else. */
  lemma {:induction false} StripTakesSpace(s: string) returns (i: nat, j: nat)
    ensures i <= j <= |s| && Strip(s) == s[i..j]
    ensures forall k | 0 <= k < i || j <= k < |s| :: Space(s[k])
    decreases |s|
  {
    if s == "" || Stripped(s) {
      i, j := 0, |s|;
      assert s[i..j] == s;
    } else if Space(s[0]) {
      i, j := StripTakesSpace(s[1..]);
      forall k | 1 <= k < i + 1 || j + 1 <= k < |s| ensures Space(s[k]) {
        assert s[1..][k - 1] == s[k];
      }
      assert s[1..][i..j] == s[i + 1..j + 1];
      i, j := i + 1, j + 1;
    } else {
      i, j := StripTakesSpace(s[..|s| - 1]);
      assert s[..|s| - 1][i..j] == s[i..j];
    }
  }

  function Digit(n: nat): char
    requires n < 10
  {
    ('0' as int + n) as char
  }

  function Decimal(n: nat): (r: string)
    ensures r != "" && forall c | c in r :: !Space(c)
  {
    if n < 10 then [Digit(n)] else Decimal(n / 10) + [Digit(n % 10)]
  }

  function Value(digits: string): int {
    if digits == "" then 0 else Value(digits[..|digits| - 1]) * 10 + (digits[|digits| - 1] as int - '0' as int)
  }

  /** A numeral has the value it is written for, and no leading zero. */
  lemma {:induction false} DecimalHasValue(n: nat)
    ensures Value(Decimal(n)) == n
    ensures n > 0 ==> Decimal(n)[0] != '0'
  {
    if n >= 10 {
      DecimalHasValue(n / 10);
      assert Decimal(n)[..|Decimal(n)| - 1] == Decimal(n / 10);
    }
  }

  lemma {:induction false} DecimalInjective(m: nat, n: nat)
    requires Decimal(m) == Decimal(n)
    ensures m == n
  {
    var dm, dn := Decimal(m), Decimal(n);
    assert dm[|dm| - 1] == Digit(m % 10) && dn[|dn| - 1] == Digit(n % 10);
    if m >= 10 && n >= 10 {
      assert dm[..|dm| - 1] == Decimal(m / 10) && dn[..|dn| - 1] == Decimal(n / 10);
      DecimalInjective(m / 10, n / 10);
    }
  }
}
