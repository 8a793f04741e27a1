/**
 * Decimal rendering of non-negative integers (what `String(Date.now())` produces when a
 * timestamp is spliced into a URL) and the correlation ids handed out by `uid()`.
 */
module Text {

  predicate IsDigit(c: char) {
    '0' <= c <= '9'
  }

  predicate AllDigits(s: string) {
    forall i :: 0 <= i < |s| ==> IsDigit(s[i])
  }

  function DigitChar(d: nat): (c: char)
    requires d < 10
    ensures IsDigit(c)
  {
    ['0', '1', '2', '3', '4', '5', '6', '7', '8', '9'][d]
  }

  function DigitValue(c: char): (d: nat)
    requires IsDigit(c)
    ensures d < 10
  {
    (c as int - '0' as int) as nat
  }

  lemma DigitRoundTrip(d: nat)
    requires d < 10
    ensures DigitValue(DigitChar(d)) == d
  {
  }

  /** The decimal notation of `n`, without leading zeros. */
  function Decimal(n: nat): (s: string)
    ensures 1 <= |s|
    ensures AllDigits(s)
    decreases n
  {
    if n < 10 then [DigitChar(n)] else Decimal(n / 10) + [DigitChar(n % 10)]
  }

  /** Reads back a string of decimal digits. */
  function ParseDecimal(s: string): nat
    requires AllDigits(s)
    decreases |s|
  {
    if s == [] then 0 else ParseDecimal(s[..|s| - 1]) * 10 + DigitValue(s[|s| - 1])
  }

  /** Decimal notation loses nothing: parsing it gives the number back. */
  lemma {:induction false} ParseDecimalOfDecimal(n: nat)
    ensures ParseDecimal(Decimal(n)) == n
    decreases n
  {
    var s := Decimal(n);
    if n < 10 {
      DigitRoundTrip(n);
    } else {
      ParseDecimalOfDecimal(n / 10);
      DigitRoundTrip(n % 10);
      assert s[..|s| - 1] == Decimal(n / 10);
    }
  }

  /** Distinct numbers have distinct decimal notations. */
  lemma DecimalInjective(a: nat, b: nat)
    requires Decimal(a) == Decimal(b)
    ensures a == b
  {
    ParseDecimalOfDecimal(a);
    ParseDecimalOfDecimal(b);
  }

  /**
   * The `n`-th id handed out by `uid()`.  The original draws a timestamp and a random suffix;
   * the model draws from a counter, so ids are never the empty string and never repeat.
   */
  function Uid(n: nat): (id: string)
    ensures id != ""
  {
    "uid-" + Decimal(n)
  }

  /** Two ids drawn from different counter values differ. */
  lemma UidInjective(a: nat, b: nat)
    requires a != b
    ensures Uid(a) != Uid(b)
  {
    if Uid(a) == Uid(b) {
      assert Decimal(a) == Uid(a)[4..];
      assert Decimal(b) == Uid(b)[4..];
      DecimalInjective(a, b);
    }
  }

  /** The ids `uid()` has handed out before the `n`-th. */
  function Issued(n: nat): set<string> {
    set i | 0 <= i < n :: Uid(i)
  }

  /** The next id has not been handed out yet, and afterwards it has. */
  lemma UidFresh(n: nat)
    ensures Uid(n) !in Issued(n)
    ensures Issued(n + 1) == Issued(n) + {Uid(n)}
  {
    if Uid(n) in Issued(n) {
      var i :| 0 <= i < n && Uid(i) == Uid(n);
      UidInjective(i, n);
    }
    assert Issued(n + 1) == Issued(n) + {Uid(n)} by {
      forall x | x in Issued(n + 1) ensures x in Issued(n) + {Uid(n)} {
        var i :| 0 <= i < n + 1 && Uid(i) == x;
        if i < n { assert Uid(i) in Issued(n); }
      }
    }
  }
}
