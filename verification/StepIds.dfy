/** The ids of a plan's operations: a running number, padded to three digits, and a name. */
module StepIds {

  function Digit(n: nat): char
    requires n < 10
  {
    '0' + n as char
  }

  function Decimal(n: nat): string {
    if n < 10 then [Digit(n)] else Decimal(n / 10) + [Digit(n % 10)]
  }

  /** `String(n).padStart(3, "0")`. */
  function Padded(n: nat): string {
    var s := Decimal(n);
    if |s| == 1 then "00" + s else if |s| == 2 then "0" + s else s
  }

  function Id(n: nat, name: string): string {
    Padded(n) + "." + name
  }

  predicate Digits(s: string) {
    forall i :: 0 <= i < |s| ==> '0' <= s[i] <= '9'
  }

  function Value(s: string): nat
    requires Digits(s)
  {
    if s == "" then 0 else 10 * Value(s[..|s| - 1]) + (s[|s| - 1] - '0') as nat
  }

  lemma {:induction false} ValueOfDecimal(n: nat)
    ensures Digits(Decimal(n)) && Value(Decimal(n)) == n
  {
    if n >= 10 {
      ValueOfDecimal(n / 10);
    } else {
      assert "" + [Digit(n)] == Decimal(n);
    }
  }

  lemma {:induction false} LeadingZero(s: string)
    requires Digits(s)
    ensures Digits("0" + s) && Value("0" + s) == Value(s)
  {
    var t := "0" + s;
    if s == "" {
      assert t[..0] == "";
    } else {
      LeadingZero(s[..|s| - 1]);
      assert t[..|t| - 1] == "0" + s[..|s| - 1];
    }
  }

  lemma {:induction false} DecimalLength(n: nat)
    ensures |Decimal(n)| >= 1 && (n < 1000 ==> |Decimal(n)| <= 3)
  {
    if n >= 10 {
      DecimalLength(n / 10);
      if 100 <= n < 1000 {
        assert n / 100 < 10 && n / 10 / 10 == n / 100;
        assert |Decimal(n / 10 / 10)| == 1;
      }
    }
  }

  /** The padded number is the number, and has three digits as long as it can. */
  lemma ValueOfPadded(n: nat)
    ensures Digits(Padded(n)) && Value(Padded(n)) == n
    ensures |Padded(n)| >= 3 && (n < 1000 ==> |Padded(n)| == 3)
  {
    DecimalLength(n);
    ValueOfDecimal(n);
    LeadingZero(Decimal(n));
    LeadingZero("0" + Decimal(n));
    assert "00" + Decimal(n) == "0" + ("0" + Decimal(n));
  }

  lemma PrefixesDiffer(a: string, x: string, b: string, y: string)
    requires Digits(a) && Digits(b) && a != b
    ensures a + "." + x != b + "." + y
  {
    if |b| < |a| {
      assert (a + "." + x)[|b|] == a[|b|] && (b + "." + y)[|b|] == '.';
    } else if |a| < |b| {
      assert (b + "." + y)[|a|] == b[|a|] && (a + "." + x)[|a|] == '.';
    } else {
      assert (a + "." + x)[..|a|] == a && (b + "." + y)[..|a|] == b;
    }
  }

  /** Different numbers give different ids, whatever the names are. */
  lemma IdsDiffer(m: nat, x: string, n: nat, y: string)
    requires m != n
    ensures Id(m, x) != Id(n, y)
  {
    ValueOfPadded(m);
    ValueOfPadded(n);
    PrefixesDiffer(Padded(m), x, Padded(n), y);
  }
}
