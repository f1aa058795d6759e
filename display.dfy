/** The text the benchmark's overlay shows: `std::to_string` of an `int`
    (decimal digits, a leading '-' for negative values, no leading zeros)
    and the labelled lines built from it. `ParseInt` is the reference
    reading of such text; the round-trip lemmas show that the overlay
    always shows exactly the value it mirrors. */
module Display {

  predicate IsDigit(c: char) {
    '0' <= c <= '9'
  }

  predicate AllDigits(s: string) {
    forall i :: 0 <= i < |s| ==> IsDigit(s[i])
  }

  /** Text `std::to_string` may produce for an `int`. */
  predicate IsDecimal(s: string) {
    if |s| > 0 && s[0] == '-' then |s| > 1 && AllDigits(s[1..])
    else |s| > 0 && AllDigits(s)
  }

  function DigitValue(c: char): (d: nat)
    requires IsDigit(c)
    ensures d < 10
  {
    c as int - '0' as int
  }

  function DigitChar(d: nat): (c: char)
    requires d < 10
    ensures IsDigit(c) && DigitValue(c) == d
  {
    ('0' as int + d) as char
  }

  /** Decimal digits of `n`, most significant first, without leading zeros. */
  function NatToString(n: nat): (r: string)
    ensures |r| > 0 && AllDigits(r)
    ensures (r[0] == '0') == (n == 0)
    ensures n == 0 ==> r == "0"
  {
    if n < 10 then [DigitChar(n)] else NatToString(n / 10) + [DigitChar(n % 10)]
  }

  /** `std::to_string(int)`. */
  function IntToString(n: int): (r: string)
    ensures IsDecimal(r)
    ensures (r[0] == '-') == (n < 0)
    ensures var digits := if n < 0 then r[1..] else r;
      digits == "0" || digits[0] != '0'
  {
    if n < 0 then "-" + NatToString(-n) else NatToString(n)
  }

  function ParseNat(s: string): (n: nat)
    requires AllDigits(s)
  {
    if |s| == 0 then 0 else 10 * ParseNat(s[..|s| - 1]) + DigitValue(s[|s| - 1])
  }

  function ParseInt(s: string): (n: int)
    requires IsDecimal(s)
  {
    if s[0] == '-' then -(ParseNat(s[1..]) as int) else ParseNat(s)
  }

  lemma {:induction false} NatRoundTrip(n: nat)
    ensures ParseNat(NatToString(n)) == n
  {
    if n >= 10 {
      var p := NatToString(n / 10);
      var r := NatToString(n);
      assert r == p + [DigitChar(n % 10)];
      assert r[..|r| - 1] == p;
      NatRoundTrip(n / 10);
    }
  }

  /** Reading back what `std::to_string` wrote gives the original value. */
  lemma IntRoundTrip(n: int)
    ensures ParseInt(IntToString(n)) == n
  {
    if n < 0 {
      assert IntToString(n)[1..] == NatToString(-n);
      NatRoundTrip(-n);
    } else {
      NatRoundTrip(n);
    }
  }

  /** Different values never print the same. */
  lemma IntToStringInjective(a: int, b: int)
    ensures IntToString(a) == IntToString(b) <==> a == b
  {
    IntRoundTrip(a);
    IntRoundTrip(b);
  }

  const INSTANCES_LABEL: string := "Instances: "
  const MAX_INSTANCES_LABEL: string := "Max Instances: "
  const INSTANCING_LABEL: string := "Using Instancing: "

  /** The `currentInstances` overlay line. */
  function InstancesText(n: int): string {
    INSTANCES_LABEL + IntToString(n)
  }

  /** The `maxInstances` overlay line. */
  function MaxInstancesText(max: int): string {
    MAX_INSTANCES_LABEL + IntToString(max)
  }

  /** The `isInstancing` string. */
  function BoolText(b: bool): string {
    if b then "true" else "false"
  }

  /** The `instancingText` overlay line. */
  function InstancingText(b: bool): string {
    INSTANCING_LABEL + BoolText(b)
  }

  /** The instance-count line is the label followed by text that reads back as the count. */
  lemma InstancesTextShowsCount(n: int)
    ensures |InstancesText(n)| > |INSTANCES_LABEL|
    ensures InstancesText(n)[..|INSTANCES_LABEL|] == INSTANCES_LABEL
    ensures var shown := InstancesText(n)[|INSTANCES_LABEL|..];
      IsDecimal(shown) && ParseInt(shown) == n
  {
    assert InstancesText(n)[|INSTANCES_LABEL|..] == IntToString(n);
    IntRoundTrip(n);
  }

  /** The mode line ends in "true" exactly when instancing is on, and in "false" otherwise. */
  lemma InstancingTextShowsMode(b: bool)
    ensures InstancingText(b)[..|INSTANCING_LABEL|] == INSTANCING_LABEL
    ensures InstancingText(b)[|INSTANCING_LABEL|..] == (if b then "true" else "false")
    ensures InstancingText(true) != InstancingText(false)
  {
  }
}
