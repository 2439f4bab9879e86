/**
 * The suggested purchase and sale price of a variant of a parent-stocked product:
 * the parent's price per parent unit times the variant's quantity expressed in
 * the parent unit, and the two-decimal default the suggestion is stored as.
 */
module Pricing {
  import opened Wrappers
  import opened Units

  datatype Suggestion = Suggestion(purchase: real, sale: real)

  /** The parent's unit, 'kg' when the parent has none (`b2c_unit or 'kg'`). */
  function ParentUnitOrKg(parentUnit: string): string {
    if parentUnit == "" then "kg" else parentUnit
  }

  /** Both parent prices scaled by the same ratio. */
  function Scaled(parentPurchase: real, parentSale: real, ratio: real): Suggestion {
    Suggestion(parentPurchase * ratio, parentSale * ratio)
  }

  /**
   * Suggested variant prices: both parent prices scaled by the variant quantity
   * converted to the parent unit.
   */
  function SuggestVariantPrices(parentPurchase: real, parentSale: real, variantQty: Option<real>,
                                variantUnit: string, parentUnit: string): Suggestion
  {
    Scaled(parentPurchase, parentSale, ConvertVariantQtyToParentUnit(variantQty, variantUnit, ParentUnitOrKg(parentUnit)))
  }

  /** A quantity that is missing, unparsable or not positive suggests prices of 0. */
  lemma NoQuantityNoPrice(pp: real, sp: real, qty: Option<real>, vu: string, pu: string)
    requires qty.None? || qty.value <= 0.0
    ensures SuggestVariantPrices(pp, sp, qty, vu, pu) == Suggestion(0.0, 0.0)
  {
  }

  /**
   * The suggestion depends on the amount, not on how it is written: the same
   * amount in another unit of the parent's table gives the same prices.
   */
  lemma SuggestionUnitInvariant(pp: real, sp: real, q: real, a: string, b: string, pu: string)
    requires q > 0.0
    requires SameTable(Normalize(a), Normalize(ParentUnitOrKg(pu)))
    requires SameTable(Normalize(b), Normalize(ParentUnitOrKg(pu)))
    ensures SuggestVariantPrices(pp, sp, Some(q), a, pu)
            == SuggestVariantPrices(pp, sp, Some(ConvertVariantQtyToParentUnit(Some(q), a, b)), b, pu)
  {
    var p := ParentUnitOrKg(pu);
    ConvertThroughIntermediate(q, a, b, p);
    SameRatioSameSuggestion(pp, sp, Some(q), a, Some(ConvertVariantQtyToParentUnit(Some(q), a, b)), b, pu);
  }

  /** Two variants whose quantities come to the same amount of the parent unit get the same prices. */
  lemma SameRatioSameSuggestion(pp: real, sp: real, q1: Option<real>, u1: string, q2: Option<real>, u2: string, pu: string)
    requires ConvertVariantQtyToParentUnit(q1, u1, ParentUnitOrKg(pu))
             == ConvertVariantQtyToParentUnit(q2, u2, ParentUnitOrKg(pu))
    ensures SuggestVariantPrices(pp, sp, q1, u1, pu) == SuggestVariantPrices(pp, sp, q2, u2, pu)
  {
  }

  /** Parent 100/kg and 150/kg, variant of 250 g: 25 and 37.50. */
  lemma SuggestionExample()
    ensures SuggestVariantPrices(100.0, 150.0, Some(250.0), "g", "kg") == Suggestion(25.0, 37.5)
  {
    ConvertExamplesQuarterKilo();
  }

  lemma ConvertExamplesQuarterKilo()
    ensures ConvertVariantQtyToParentUnit(Some(250.0), "g", "kg") == 0.25
  {
    NormalizeGrams();
    NormalizeKilograms();
  }

  // ---------------------------------------------------------------- the two-decimal default

  /** The nearest integer, ties to the even one (Decimal's default rounding). */
  function RoundHalfEven(x: real): (r: int)
    ensures -0.5 <= r as real - x <= 0.5
    ensures x == x.Floor as real ==> r == x.Floor
    ensures r as real - x == 0.5 || x - r as real == 0.5 ==> r % 2 == 0
  {
    var f := x.Floor;
    var d := x - f as real;
    if d < 0.5 then f
    else if d > 0.5 then f + 1
    else if f % 2 == 0 then f else f + 1
  }

  /** `f"{d:.2f}"` of a Decimal d, read back as a number: d rounded to cents, ties to even. */
  function Cents(x: real): (r: real)
    ensures -0.005 <= r - x <= 0.005
  {
    RoundHalfEven(x * 100.0) as real / 100.0
  }

  /** The stored default when the user keeps the suggestion: both suggestions rounded to cents. */
  function DefaultVariantPrices(parentPurchase: real, parentSale: real, variantQty: Option<real>,
                                variantUnit: string, parentUnit: string): (r: Suggestion)
    ensures var s := SuggestVariantPrices(parentPurchase, parentSale, variantQty, variantUnit, parentUnit);
            -0.005 <= r.purchase - s.purchase <= 0.005 && -0.005 <= r.sale - s.sale <= 0.005
  {
    var s := SuggestVariantPrices(parentPurchase, parentSale, variantQty, variantUnit, parentUnit);
    Suggestion(Cents(s.purchase), Cents(s.sale))
  }

  /** An amount already in whole cents is stored unchanged. */
  lemma CentsOfCents(k: int)
    ensures Cents(k as real / 100.0) == k as real / 100.0
  {
    assert (k as real / 100.0) * 100.0 == k as real;
  }

  /** Half a cent rounds to the even cent: 0.125 is stored as 0.12 and 0.375 as 0.38. */
  lemma CentsTiesToEven()
    ensures Cents(0.125) == 0.12 && Cents(0.375) == 0.38
  {
    assert RoundHalfEven(12.5) == 12;
    assert RoundHalfEven(37.5) == 38;
  }
}
