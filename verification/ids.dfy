/** Identifier generation (src/context/DataContext.tsx, `genId`).
    One counter is shared by every entity kind. An identifier is a kind prefix
    followed by the incremented counter in decimal, left-padded with zeros to
    three digits. */
module Ids {

  /** The counter's value before the first identifier is issued. */
  const InitialCounter: nat := 100

  predicate IsDigit(c: char) {
    '0' <= c <= '9'
  }

  predicate AllDigits(s: string) {
    forall i :: 0 <= i < |s| ==> IsDigit(s[i])
  }

  /** A kind prefix: non-empty and made of upper-case letters ("F", "CT", "PF", ...). */
  predicate IsPrefix(p: string) {
    |p| > 0 && forall i :: 0 <= i < |p| ==> 'A' <= p[i] <= 'Z'
  }

  function DigitValue(c: char): nat
    requires IsDigit(c)
  {
    c as int - '0' as int
  }

  function DigitChar(d: nat): (c: char)
    requires d < 10
    ensures IsDigit(c) && DigitValue(c) == d
  {
    ('0' as int + d) as char
  }

  /** Decimal rendering of a natural number without leading zeros. */
  function Decimal(n: nat): (s: string)
    ensures 1 <= |s| && AllDigits(s)
  {
    if n < 10 then [DigitChar(n)] else Decimal(n / 10) + [DigitChar(n % 10)]
  }

  /** The number denoted by a string of decimal digits (most significant first). */
  function ValueOf(s: string): nat
    requires AllDigits(s)
  {
    if |s| == 0 then 0 else ValueOf(s[..|s| - 1]) * 10 + DigitValue(s[|s| - 1])
  }

  /** Left-padding with '0' up to `width` characters; longer strings are kept. */
  function PadStart(s: string, width: nat): (r: string)
    ensures |r| == if |s| >= width then |s| else width
    ensures r[|r| - |s|..] == s
    ensures forall i :: 0 <= i < |r| - |s| ==> r[i] == '0'
  {
    if |s| >= width then s else seq(width - |s|, _ => '0') + s
  }

  /** `genId(prefix)` once the shared counter has been incremented to `n`. */
  function GenId(prefix: string, n: nat): string {
    prefix + PadStart(Decimal(n), 3)
  }

  /** A generated identifier is the prefix followed by at least three digits. */
  lemma GenIdShape(prefix: string, n: nat)
    ensures var r := GenId(prefix, n);
            |r| >= |prefix| + 3 && r[..|prefix|] == prefix && AllDigits(r[|prefix|..])
  {
    var d := PadStart(Decimal(n), 3);
    assert AllDigits(d) by {
      forall i | 0 <= i < |d|
        ensures IsDigit(d[i])
      {
        if i >= |d| - |Decimal(n)| {
          assert d[i] == d[|d| - |Decimal(n)|..][i - (|d| - |Decimal(n)|)];
        }
      }
    }
    assert (prefix + d)[|prefix|..] == d;
  }

  /** The longest run of decimal digits that ends `s`. */
  function DigitSuffix(s: string): (d: string)
    ensures AllDigits(d) && |d| <= |s|
  {
    if |s| > 0 && IsDigit(s[|s| - 1]) then DigitSuffix(s[..|s| - 1]) + [s[|s| - 1]] else []
  }

  /** The counter value an identifier carries: its trailing digits read as a number. */
  function NumOf(id: string): nat {
    ValueOf(DigitSuffix(id))
  }

  lemma {:induction false} ValueOfDecimal(n: nat)
    ensures ValueOf(Decimal(n)) == n
  {
    if n >= 10 {
      var d := Decimal(n / 10);
      var s := d + [DigitChar(n % 10)];
      assert s[..|s| - 1] == d;
      ValueOfDecimal(n / 10);
    }
  }

  lemma {:induction false} ValueOfZeroPrefix(z: string, s: string)
    requires forall i :: 0 <= i < |z| ==> z[i] == '0'
    requires AllDigits(s)
    ensures AllDigits(z + s) && ValueOf(z + s) == ValueOf(s)
  {
    assert AllDigits(z + s);
    if |s| == 0 {
      assert z + s == z;
      ValueOfZeros(z);
    } else {
      var t := z + s;
      assert t[..|t| - 1] == z + s[..|s| - 1];
      ValueOfZeroPrefix(z, s[..|s| - 1]);
    }
  }

  lemma {:induction false} ValueOfZeros(z: string)
    requires forall i :: 0 <= i < |z| ==> z[i] == '0'
    ensures AllDigits(z) && ValueOf(z) == 0
  {
    if |z| > 0 {
      ValueOfZeros(z[..|z| - 1]);
    }
  }

  /** Leading zeros added by the padding do not change the number read back. */
  lemma PaddedValue(n: nat)
    ensures AllDigits(PadStart(Decimal(n), 3))
    ensures ValueOf(PadStart(Decimal(n), 3)) == n
  {
    var d := Decimal(n);
    ValueOfDecimal(n);
    if |d| < 3 {
      ValueOfZeroPrefix(seq(3 - |d|, _ => '0'), d);
    }
  }

  lemma {:induction false} DigitSuffixOfAppend(p: string, d: string)
    requires AllDigits(d)
    requires |p| == 0 || !IsDigit(p[|p| - 1])
    ensures DigitSuffix(p + d) == d
  {
    var s := p + d;
    if |d| == 0 {
      assert s == p;
      assert |p| == 0 || !IsDigit(s[|s| - 1]);
    } else {
      var d' := d[..|d| - 1];
      assert s[..|s| - 1] == p + d';
      assert s[|s| - 1] == d[|d| - 1];
      assert IsDigit(s[|s| - 1]);
      DigitSuffixOfAppend(p, d');
      calc {
        DigitSuffix(s);
        DigitSuffix(s[..|s| - 1]) + [s[|s| - 1]];
        d' + [d[|d| - 1]];
        d;
      }
    }
  }

  /** The digits at the end of a generated identifier are exactly its padded counter. */
  lemma DigitSuffixOfGenId(p: string, n: nat)
    requires IsPrefix(p)
    ensures DigitSuffix(GenId(p, n)) == PadStart(Decimal(n), 3)
  {
    assert !IsDigit(p[|p| - 1]);
    DigitSuffixOfAppend(p, PadStart(Decimal(n), 3));
  }

  /** Reading the counter back from a generated identifier gives the counter. */
  lemma NumOfGenId(p: string, n: nat)
    requires IsPrefix(p)
    ensures NumOf(GenId(p, n)) == n
  {
    DigitSuffixOfGenId(p, n);
    PaddedValue(n);
  }

  /** Two generated identifiers are equal only when prefix and counter are both equal:
      since the counter is shared and strictly increases, no identifier is issued twice. */
  lemma GenIdInjective(p1: string, n1: nat, p2: string, n2: nat)
    requires IsPrefix(p1) && IsPrefix(p2)
    ensures GenId(p1, n1) == GenId(p2, n2) <==> p1 == p2 && n1 == n2
  {
    if GenId(p1, n1) == GenId(p2, n2) {
      NumOfGenId(p1, n1);
      NumOfGenId(p2, n2);
      var s := GenId(p1, n1);
      DigitSuffixOfGenId(p1, n1);
      DigitSuffixOfGenId(p2, n2);
      var d := DigitSuffix(s);
      assert p1 == s[..|s| - |d|];
      assert p2 == s[..|s| - |d|];
    }
  }

  /** One issue of `genId`: the incremented counter and the identifier it yields. */
  function Issue(counter: nat, prefix: string): (r: (string, nat))
    requires IsPrefix(prefix)
    ensures r.1 == counter + 1 && r.1 > counter
    ensures NumOf(r.0) == r.1
  {
    NumOfGenId(prefix, counter + 1);
    (GenId(prefix, counter + 1), counter + 1)
  }

  /** Every identifier issued after the initial counter carries a number above 100,
      while the hand-written seed identifiers ("F001" ... "TAR006") carry 1 to 6, so no
      generated identifier collides with a seed identifier. */
  lemma GeneratedAboveSeeds(p: string, q: string, counter: nat, k: nat)
    requires IsPrefix(p) && IsPrefix(q)
    requires counter >= InitialCounter && 1 <= k <= 6
    ensures GenId(p, counter + 1) != GenId(q, k)
  {
    NumOfGenId(p, counter + 1);
    NumOfGenId(q, k);
  }

  /** The seed identifiers are the identifiers `genId` would give for small counters. */
  lemma SeedIdShape()
    ensures GenId("CT", 1) == "CT001"
    ensures GenId("TAR", 6) == "TAR006"
    ensures NumOf("CT001") == 1
  {
    assert Decimal(1) == "1";
    assert Decimal(6) == "6";
    NumOfGenId("CT", 1);
  }
}
