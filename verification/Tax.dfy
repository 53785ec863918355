/** Centime VAT arithmetic (src/modules/billing/tax.ts). */
module Tax {
  import opened Common

  const VAT_RATE_PERCENT: int := 20

  datatype VatBreakdown = VatBreakdown(amountHT: int, vatAmount: int, amountTTC: int)

  function ComputeVat(amountHT: int): VatBreakdown {
    var vat := RoundHalfUp(amountHT * VAT_RATE_PERCENT, 100);
    VatBreakdown(amountHT, vat, amountHT + vat)
  }

  function ComputeVatFromTtc(amountTTC: int): VatBreakdown {
    var ht := RoundHalfUp(amountTTC * 100, 100 + VAT_RATE_PERCENT);
    VatBreakdown(ht, amountTTC - ht, amountTTC)
  }

  /** A breakdown always adds up, whichever side it was computed from. */
  lemma BreakdownAddsUp(amount: int)
    ensures var b := ComputeVat(amount); b.amountHT == amount && b.amountHT + b.vatAmount == b.amountTTC
    ensures var b := ComputeVatFromTtc(amount); b.amountTTC == amount && b.amountHT + b.vatAmount == b.amountTTC
  {
  }

  /** Rounding the tax on 5q + s centimes, 0 <= s < 5. */
  lemma VatOf(q: int, s: int)
    requires 0 <= s < 5
    ensures ComputeVat(5 * q + s).vatAmount == q + if s >= 3 then 1 else 0
  {
    RoundHalfUpUnique((5 * q + s) * VAT_RATE_PERCENT, 100, q + if s >= 3 then 1 else 0);
  }

  /** The price before tax of 6q + r centimes, 0 <= r < 6. */
  lemma HtOf(q: int, r: int)
    requires 0 <= r < 6
    ensures ComputeVatFromTtc(6 * q + r).amountHT == 5 * q + if r >= 4 then r - 1 else r
  {
    RoundHalfUpUnique((6 * q + r) * 100, 100 + VAT_RATE_PERCENT, 5 * q + if r >= 4 then r - 1 else r);
  }

  /** What a customer is charged determines the price it was computed from. */
  lemma HtSurvivesTheRoundTrip(ht: int)
    ensures ComputeVatFromTtc(ComputeVat(ht).amountTTC).amountHT == ht
  {
    hide RoundHalfUp;
    var q, s := ht / 5, ht % 5;
    VatOf(q, s);
    HtOf(q, if s >= 3 then s + 1 else s);
  }

  /** In the other direction one residue in six comes back a centime higher. */
  lemma TtcRoundTripError(ttc: int)
    ensures ComputeVat(ComputeVatFromTtc(ttc).amountHT).amountTTC == ttc + (if ttc % 6 == 3 then 1 else 0)
  {
    hide RoundHalfUp;
    var q, r := ttc / 6, ttc % 6;
    HtOf(q, r);
    VatOf(q, if r >= 4 then r - 1 else r);
  }

  /** Charging is strictly monotone, so two plans with different prices are charged differently. */
  lemma ChargeIsStrictlyMonotone(a: int, b: int)
    requires a < b
    ensures ComputeVat(a).amountTTC < ComputeVat(b).amountTTC
  {
    hide RoundHalfUp;
    VatOf(a / 5, a % 5);
    VatOf(b / 5, b % 5);
  }
}
