/** The locked USD to NGN settlement amount. Rates are in millionths, as NUMERIC(16, 6) stores them. */
module Fx {
  import opened Seqs

  const MICROS: nat := 1_000_000
  const MAX_KOBO: nat := 2_147_483_647
  const MIN_RATE: nat := 100 * MICROS
  const MAX_RATE: nat := 10_000 * MICROS

  /** `quantize(..., ROUND_HALF_UP)` of n / d to an integer. */
  function HalfUp(n: nat, d: nat): nat
    requires d > 0
  {
    (2 * n + d) / (2 * d)
  }

  /** HalfUp picks the integer r with r - 1/2 <= n/d < r + 1/2, and only that one. */
  lemma HalfUpIsNearest(n: nat, d: nat, r: nat)
    requires d > 0
    ensures r == HalfUp(n, d) <==> 2 * r * d <= 2 * n + d < 2 * r * d + 2 * d
  {
    var m, k := 2 * n + d, 2 * d;
    var q := HalfUp(n, d);
    assert m == q * k + m % k;
    Doubled(q, d);
    Doubled(r, d);
    if r < q {
      Step(r + 1, q, k);
      assert (r + 1) * k == r * k + k;
    } else if r > q {
      Step(q + 1, r, k);
      assert (q + 1) * k == q * k + k;
    }
  }

  lemma Doubled(x: nat, d: nat)
    ensures x * (2 * d) == 2 * x * d
  {
  }

  lemma Step(a: nat, b: nat, k: nat)
    requires a <= b
    ensures a * k <= b * k
  {
    assert 0 <= (b - a) * k == b * k - a * k;
  }

  function UsdCentsToNgnKobo(usdCents: int, rate: nat): Option<nat> {
    if usdCents <= 0 || rate == 0 then None
    else
      var kobo := HalfUp(usdCents * rate, MICROS);
      if kobo > MAX_KOBO then None else Some(kobo)
  }

  /** A quotation in the accepted band settles to a positive amount in range, within half a kobo of
      the exact product (a tie goes up), and is refused only for a non-positive price or an out-of-range result. */
  lemma SettlementIsFaithful(usdCents: int, rate: nat)
    requires MIN_RATE <= rate <= MAX_RATE
    ensures match UsdCentsToNgnKobo(usdCents, rate)
            case Some(kobo) => 1 <= kobo <= MAX_KOBO && usdCents > 0 &&
                               -(MICROS as int) < 2 * (kobo * MICROS - usdCents * rate) <= MICROS
            case None => usdCents <= 0 || 2 * usdCents * rate >= (2 * MAX_KOBO + 1) * MICROS
  {
    if usdCents > 0 {
      var product := usdCents * rate;
      assert product >= rate;
      HalfUpIsNearest(product, MICROS, HalfUp(product, MICROS));
      assert 2 * usdCents * rate == 2 * product;
    }
  }
}
