/**
 Request ids: the n-th message a client builds carries the decimal text of n taken
 modulo 2^32, because the counter behind it is a uint32.
 */
module RequestIds {

  const ID_SPACE: nat := 0x1_0000_0000

  function Digit(d: nat): char
    requires d < 10
  {
    '0' + d as char
  }

  function Decimal(n: nat): (s: string)
    ensures |s| > 0 && forall i :: 0 <= i < |s| ==> '0' <= s[i] <= '9'
  {
    if n < 10 then [Digit(n)] else Decimal(n / 10) + [Digit(n % 10)]
  }

  /** The number a decimal text denotes. */
  function DecimalValue(s: string): int {
    if s == [] then 0 else 10 * DecimalValue(s[..|s| - 1]) + (s[|s| - 1] as int - '0' as int)
  }

  lemma {:induction false} DecimalRoundTrip(n: nat)
    ensures DecimalValue(Decimal(n)) == n
  {
    var s := Decimal(n);
    if n < 10 {
      assert s[..|s| - 1] == [];
    } else {
      DecimalRoundTrip(n / 10);
      assert s[..|s| - 1] == Decimal(n / 10);
    }
  }

  /** The id text of the serial-th message; serials count from one. */
  function IdText(serial: nat): string {
    Decimal(serial % ID_SPACE)
  }

  /** Two messages of one client carry the same id exactly when their serials differ by a multiple of 2^32. */
  lemma IdTextCollision(a: nat, b: nat)
    ensures IdText(a) == IdText(b) <==> (a - b) % ID_SPACE == 0
  {
    DecimalRoundTrip(a % ID_SPACE);
    DecimalRoundTrip(b % ID_SPACE);
    assert a == ID_SPACE * (a / ID_SPACE) + a % ID_SPACE;
    assert b == ID_SPACE * (b / ID_SPACE) + b % ID_SPACE;
    SameRemainder(a, b);
  }

  lemma SameRemainder(a: nat, b: nat)
    ensures a % ID_SPACE == b % ID_SPACE <==> (a - b) % ID_SPACE == 0
  {
  }

  /** So the first 2^32 messages carry pairwise different ids, and the next one repeats the first. */
  lemma IdTextUnique(a: nat, b: nat)
    requires 1 <= a <= ID_SPACE && 1 <= b <= ID_SPACE
    ensures IdText(a) == IdText(b) ==> a == b
  {
    IdTextCollision(a, b);
  }

  lemma IdTextRepeats()
    ensures IdText(1) == IdText(1 + ID_SPACE)
  {
    IdTextCollision(1, 1 + ID_SPACE);
  }
}
