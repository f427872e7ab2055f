/** formatNumber of the CLI (kafig-cli/interactive.go): decimal digits with a
    comma before every third digit from the right. */
module DigitGroups {
  import Bits

  function Digits(n: nat): (s: string)
    ensures s != "" && ',' !in s
  {
    if n < 10 then [('0' as int + n) as char] else Digits(n / 10) + [('0' as int + n % 10) as char]
  }

  /** The number that a string of digits stands for. */
  function Value(s: string): int {
    if s == "" then 0 else 10 * Value(s[..|s| - 1]) + (s[|s| - 1] as int - '0' as int)
  }

  function Stripped(s: string): string {
    if s == "" then "" else (if s[0] == ',' then "" else [s[0]]) + Stripped(s[1..])
  }

  /** What the loop writes from digit i on. */
  function GroupedFrom(s: string, i: nat): string
    requires i <= |s|
    decreases |s| - i
  {
    if i == |s| then ""
    else (if i > 0 && (|s| - i) % 3 == 0 then "," else "") + [s[i]] + GroupedFrom(s, i + 1)
  }

  method FormatNumber(n: nat) returns (out: string)
    ensures out == GroupedFrom(Digits(n), 0)
  {
    hide Digits, GroupedFrom;
    var s := Digits(n);
    if |s| <= 3 {
      ShortIsPlain(s, 0);
      assert s[0..] == s;
      return s;
    }
    out := "";
    var i := 0;
    assert out + GroupedFrom(s, 0) == GroupedFrom(s, 0);
    while i < |s|
      invariant i <= |s| && out + GroupedFrom(s, i) == GroupedFrom(s, 0)
    {
      var c := if i > 0 && (|s| - i) % 3 == 0 then "," else "";
      GroupStep(out, c, s, i);
      out := out + c + [s[i]];
      i := i + 1;
    }
    GroupedEnd(s);
    assert out + "" == out;
  }

  lemma GroupedEnd(s: string)
    ensures GroupedFrom(s, |s|) == ""
  {
  }

  lemma GroupStep(out: string, c: string, s: string, i: nat)
    requires i < |s| && c == if i > 0 && (|s| - i) % 3 == 0 then "," else ""
    ensures (out + c + [s[i]]) + GroupedFrom(s, i + 1) == out + GroupedFrom(s, i)
  {
    var rest := GroupedFrom(s, i + 1);
    assert GroupedFrom(s, i) == c + [s[i]] + rest;
    hide GroupedFrom;
    assert out + (c + [s[i]] + rest) == (out + c + [s[i]]) + rest;
  }

  lemma {:induction false} ShortIsPlain(s: string, i: nat)
    requires |s| <= 3 && i <= |s|
    ensures GroupedFrom(s, i) == s[i..]
    decreases |s| - i
  {
    if i < |s| {
      ShortIsPlain(s, i + 1);
      assert s[i..] == [s[i]] + s[i + 1..];
    }
  }

  lemma {:induction false} ValueOfDigits(n: nat)
    ensures Value(Digits(n)) == n
  {
    if n >= 10 {
      ValueOfDigits(n / 10);
      assert Digits(n)[..|Digits(n)| - 1] == Digits(n / 10);
    }
  }

  lemma {:induction false} StripGrouped(s: string, i: nat)
    requires i <= |s| && ',' !in s
    ensures Stripped(GroupedFrom(s, i)) == s[i..]
    decreases |s| - i
  {
    if i < |s| {
      hide Stripped, GroupedFrom;
      var rest := GroupedFrom(s, i + 1);
      StripGrouped(s, i + 1);
      assert s[i] in s;
      StripFirst(s[i], rest);
      StripFirst(',', [s[i]] + rest);
      GroupedNext(s, i);
      assert s[i..] == [s[i]] + s[i + 1..];
    }
  }

  lemma GroupedNext(s: string, i: nat)
    requires i < |s|
    ensures GroupedFrom(s, i) ==
      if i > 0 && (|s| - i) % 3 == 0 then [','] + ([s[i]] + GroupedFrom(s, i + 1)) else [s[i]] + GroupedFrom(s, i + 1)
  {
  }

  lemma StripFirst(c: char, rest: string)
    ensures Stripped([c] + rest) == (if c == ',' then "" else [c]) + Stripped(rest)
  {
    assert ([c] + rest)[1..] == rest;
  }

  /** Taking the commas out gives back the digits, and those the number. */
  lemma FormatRoundTrip(n: nat)
    ensures Stripped(GroupedFrom(Digits(n), 0)) == Digits(n)
    ensures Value(Stripped(GroupedFrom(Digits(n), 0))) == n
  {
    StripGrouped(Digits(n), 0);
    ValueOfDigits(n);
    assert Digits(n)[0..] == Digits(n);
  }

  /** Every comma has a positive multiple of three digits behind it and, in the
      whole number, a digit before it. */
  lemma {:induction false} CommasEveryThird(s: string, i: nat, j: nat)
    requires i <= |s| && ',' !in s && j < |GroupedFrom(s, i)| && GroupedFrom(s, i)[j] == ','
    ensures var after := |Stripped(GroupedFrom(s, i)[j + 1..])|;
      0 < after <= |s| - i && after % 3 == 0 && (i == 0 ==> j > 0 && after < |s|)
    decreases |s| - i
  {
    var rest := GroupedFrom(s, i + 1);
    var k := if i > 0 && (|s| - i) % 3 == 0 then 2 else 1;
    assert s[i] in s;
    if j >= k {
      assert GroupedFrom(s, i)[j] == rest[j - k] && GroupedFrom(s, i)[j + 1..] == rest[j - k + 1..];
      CommasEveryThird(s, i + 1, j - k);
    } else {
      assert j == 0 && GroupedFrom(s, i)[1..] == [s[i]] + rest;
      StripGrouped(s, i + 1);
      assert ([s[i]] + rest)[1..] == rest;
    }
  }

  lemma {:induction false} GroupedLength(s: string, i: nat)
    requires 0 < i <= |s|
    ensures |GroupedFrom(s, i)| == |s| - i + (|s| - i) / 3
    decreases |s| - i
  {
    if i < |s| { GroupedLength(s, i + 1); }
  }

  /** d digits take d + (d - 1) / 3 characters. */
  lemma FormattedLength(n: nat)
    ensures |GroupedFrom(Digits(n), 0)| == |Digits(n)| + (|Digits(n)| - 1) / 3
  {
    GroupedLength(Digits(n), 1);
  }

  function Pow10(k: nat): (p: nat)
    ensures p > 0
  {
    if k == 0 then 1 else 10 * Pow10(k - 1)
  }

  /** The decimal numeral: as many digits as the number needs, no leading zero but
      for zero itself, and digit i counted from the left is that power's share. */
  lemma {:induction false} DigitsAreDecimal(n: nat, i: nat)
    requires i < |Digits(n)|
    ensures n < Pow10(|Digits(n)|) && (n > 0 ==> Pow10(|Digits(n)| - 1) <= n)
    ensures Digits(n)[i] as int == '0' as int + n / Pow10(|Digits(n)| - 1 - i) % 10
    ensures Digits(n)[0] == '0' <==> n == 0
  {
    if n >= 10 {
      var d := |Digits(n)|;
      assert Digits(n) == Digits(n / 10) + [('0' as int + n % 10) as char];
      DigitsAreDecimal(n / 10, if i < d - 1 then i else 0);
      assert Pow10(d) == 10 * Pow10(d - 1) && Pow10(d - 1) == 10 * Pow10(d - 2);
      if i < d - 1 {
        DivTwice(n, Pow10(d - 2 - i));
        assert Pow10(d - 1 - i) == 10 * Pow10(d - 2 - i);
      } else {
        assert Pow10(0) == 1;
      }
    } else {
      assert Pow10(0) == 1 && Pow10(1) == 10;
    }
  }

  lemma DivTwice(n: nat, p: nat)
    requires p > 0
    ensures n / (10 * p) == n / 10 / p
  {
    var q, r := n / 10 / p, n / 10 % p;
    assert n == 10 * p * q + (10 * r + n % 10) by {
      assert n / 10 == p * q + r;
      assert 10 * (p * q) == 10 * p * q;
    }
    assert 0 <= 10 * r + n % 10 < 10 * p;
    Bits.DivModUnique(n, 10 * p, q, 10 * r + n % 10);
  }
}
