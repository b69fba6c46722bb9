/**
 * Currency amounts as the relay's validator sees them: per-currency limits in
 * hundredths of the currency and their `%.2f` rendering in rejection reasons.
 */
module Amounts {
  /** Minimum and maximum native amounts, in hundredths of the currency. */
  datatype Limit = Limit(minCents: nat, maxCents: nat)

  const Kin: string := "kin"
  const Usd: string := "usd"
  const QuarksPerKin: nat := 100_000

  /** The limits the relay's tests exercise: 5000 to 100000 kin, 0.05 to 1.00 usd. */
  const StandardLimits: map<string, Limit> := map[Kin := Limit(500_000, 10_000_000), Usd := Limit(5, 100)]

  function DigitChar(d: nat): (c: char)
    requires d < 10
    ensures '0' <= c <= '9' && c as int - '0' as int == d
  {
    ['0', '1', '2', '3', '4', '5', '6', '7', '8', '9'][d]
  }

  predicate AllDigits(s: string)
  {
    forall i | 0 <= i < |s| :: '0' <= s[i] <= '9'
  }

  /** The number a string of decimal digits spells, most significant digit first. */
  function DigitsValue(s: string): nat
    requires AllDigits(s)
  {
    if s == [] then 0 else DigitsValue(s[..|s| - 1]) * 10 + (s[|s| - 1] as int - '0' as int)
  }

  /** Decimal rendering of a natural number, without leading zeros. */
  function NatToString(n: nat): (s: string)
    ensures |s| >= 1 && AllDigits(s)
    ensures |s| > 1 ==> s[0] != '0'
    ensures DigitsValue(s) == n
  {
    if n < 10 then [DigitChar(n)]
    else
      var s := NatToString(n / 10) + [DigitChar(n % 10)];
      assert s[..|s| - 1] == NatToString(n / 10);
      s
  }

  /**
   * Whether `t` reads as the amount `cents / 100` in `%.2f` form: whole units in
   * digits, a point, and exactly two digits of hundredths.
   */
  predicate DenotesCents(t: string, cents: nat)
  {
    && |t| >= 4 && t[|t| - 3] == '.'
    && AllDigits(t[..|t| - 3]) && AllDigits(t[|t| - 2..])
    && DigitsValue(t[..|t| - 3]) * 100 + DigitsValue(t[|t| - 2..]) == cents
  }

  /** `%.2f` of `cents / 100`. */
  function FormatCents(cents: nat): (r: string)
    ensures DenotesCents(r, cents)
    ensures |r| > 4 ==> r[0] != '0'
  {
    var frac := cents % 100;
    var whole := NatToString(cents / 100);
    var hundredths := [DigitChar(frac / 10), DigitChar(frac % 10)];
    var r := whole + "." + hundredths;
    assert r[..|r| - 3] == whole;
    assert r[|r| - 2..] == hundredths;
    TwoDigitsValue(frac);
    r
  }

  /** The two `%.2f` hundredths digits of `frac` spell `frac`. */
  lemma TwoDigitsValue(frac: nat)
    requires frac < 100
    ensures AllDigits([DigitChar(frac / 10), DigitChar(frac % 10)])
    ensures DigitsValue([DigitChar(frac / 10), DigitChar(frac % 10)]) == frac
  {
    var hi, lo := DigitChar(frac / 10), DigitChar(frac % 10);
    var t := [hi, lo];
    assert t[..1] == [hi];
    assert [hi][..0] == [];
    assert DigitsValue([hi]) == frac / 10;
    assert DigitsValue(t) == DigitsValue([hi]) * 10 + (lo as int - '0' as int);
  }

  const MinimumPhrase: string := " currency has a minimum amount of "
  const MaximumPhrase: string := " currency has a maximum amount of "

  /** The reason for an amount below the minimum: the currency, the phrase, then the minimum in `%.2f` form. */
  function MinimumReason(currency: string, minCents: nat): (r: string)
    ensures |r| >= |currency + MinimumPhrase|
    ensures r[..|currency + MinimumPhrase|] == currency + MinimumPhrase
    ensures DenotesCents(r[|currency + MinimumPhrase|..], minCents)
  {
    var r := currency + MinimumPhrase + FormatCents(minCents);
    assert r[|currency + MinimumPhrase|..] == FormatCents(minCents);
    r
  }

  /** The reason for an amount above the maximum, in the same form. */
  function MaximumReason(currency: string, maxCents: nat): (r: string)
    ensures |r| >= |currency + MaximumPhrase|
    ensures r[..|currency + MaximumPhrase|] == currency + MaximumPhrase
    ensures DenotesCents(r[|currency + MaximumPhrase|..], maxCents)
  {
    var r := currency + MaximumPhrase + FormatCents(maxCents);
    assert r[|currency + MaximumPhrase|..] == FormatCents(maxCents);
    r
  }

  /** The standard usd limits render as the relay's reasons show them. */
  lemma UsdLimitAmounts()
    ensures FormatCents(5) == "0.05"
    ensures FormatCents(100) == "1.00"
  {
    assert DigitChar(0) == '0' && DigitChar(1) == '1' && DigitChar(5) == '5';
    assert NatToString(0) == "0";
    assert NatToString(1) == "1";
  }

  /** The standard kin minimum renders as the relay's reason shows it. */
  lemma KinMinimumAmount()
    ensures FormatCents(500_000) == "5000.00"
  {
    assert DigitChar(0) == '0' && DigitChar(5) == '5';
    assert NatToString(50) == NatToString(5) + "0";
    assert NatToString(500) == NatToString(50) + "0";
    assert NatToString(5000) == NatToString(500) + "0";
  }

  /** The standard kin maximum renders as the relay's reason shows it. */
  lemma KinMaximumAmount()
    ensures FormatCents(10_000_000) == "100000.00"
  {
    assert DigitChar(0) == '0' && DigitChar(1) == '1';
    assert NatToString(10) == NatToString(1) + "0";
    assert NatToString(100) == NatToString(10) + "0";
    assert NatToString(1000) == NatToString(100) + "0";
    assert NatToString(10000) == NatToString(1000) + "0";
    assert NatToString(100000) == NatToString(10000) + "0";
  }

  /** The standard table's limits render as the amounts in the relay's reasons. */
  lemma StandardLimitsRenderAsTested()
    ensures FormatCents(StandardLimits[Kin].minCents) == "5000.00"
    ensures FormatCents(StandardLimits[Kin].maxCents) == "100000.00"
    ensures FormatCents(StandardLimits[Usd].minCents) == "0.05"
    ensures FormatCents(StandardLimits[Usd].maxCents) == "1.00"
  {
    KinMinimumAmount();
    KinMaximumAmount();
    UsdLimitAmounts();
  }
}
