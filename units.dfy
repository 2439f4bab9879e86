/**
 * Unit conversion for variant quantities: convert_variant_qty_to_parent_unit,
 * with its two closed tables (weight in kg, volume in litres), and the smaller
 * pairwise convert_base_to_unit.
 */
module Units {
  import opened Wrappers
  import opened Text

  datatype Family = Weight | Volume

  /** A unit of one of the two tables: its family and whether it is the milli unit (factor 0.001). */
  datatype Scale = Scale(family: Family, milli: bool)

  /**
   * The two tables of the source, keyed by normalised name: weight in kg
   * (kg, kilogram = 1; g, gram, grams, gms = 0.001) and volume in litres
   * (l, liter, litre = 1; ml, milliliter, millilitre = 0.001). No name is in both.
   */
  function Classify(u: string): Option<Scale> {
    if u == "kg" || u == "kilogram" then Some(Scale(Weight, false))
    else if u == "g" || u == "gram" || u == "grams" || u == "gms" then Some(Scale(Weight, true))
    else if u == "l" || u == "liter" || u == "litre" then Some(Scale(Volume, false))
    else if u == "ml" || u == "milliliter" || u == "millilitre" then Some(Scale(Volume, true))
    else None
  }

  /** The table value of a unit: kg or litres per unit. */
  function Factor(s: Scale): real { if s.milli then 0.001 else 1.0 }

  /** Unit names are matched after strip() and lower(). */
  function Normalize(u: string): string { Lower(Strip(u)) }

  /** Both normalised units are in the same table (weight is tried first, then volume). */
  predicate SameTable(a: string, b: string) {
    var ca, cb := Classify(a), Classify(b);
    ca.Some? && cb.Some? && ca.value.family == cb.value.family
  }

  /**
   * The quantity qty, given in unit variantUnit, expressed in parentUnit.
   * qty is None where the quantity text does not parse as a number.
   * A missing or non-positive quantity gives 0; units outside a common table
   * leave the quantity as it is.
   */
  function ConvertVariantQtyToParentUnit(qty: Option<real>, variantUnit: string, parentUnit: string): (r: real)
    ensures (qty.None? || qty.value <= 0.0) <==> r == 0.0
    ensures r >= 0.0
  {
    var q := if qty.Some? then qty.value else 0.0;
    if q <= 0.0 then 0.0
    else
      var v := Normalize(variantUnit);
      var p := Normalize(parentUnit);
      if SameTable(v, p) then q * Factor(Classify(v).value) / Factor(Classify(p).value)
      else q
  }

  /** Within one table the result is qty × fromFactor / toFactor: ×1000, ÷1000 or unchanged. */
  lemma ConvertWithinTable(q: real, a: string, b: string)
    requires q > 0.0
    requires SameTable(Normalize(a), Normalize(b))
    ensures var sa, sb := Classify(Normalize(a)).value, Classify(Normalize(b)).value;
            ConvertVariantQtyToParentUnit(Some(q), a, b)
            == if sa.milli == sb.milli then q else if sa.milli then q / 1000.0 else q * 1000.0
  {
  }

  /**
   * Converting through an intermediate unit of the same table changes nothing:
   * the conversions compose.
   */
  lemma ConvertThroughIntermediate(q: real, a: string, b: string, p: string)
    requires q > 0.0
    requires SameTable(Normalize(a), Normalize(p)) && SameTable(Normalize(b), Normalize(p))
    ensures ConvertVariantQtyToParentUnit(Some(q), a, p)
            == ConvertVariantQtyToParentUnit(Some(ConvertVariantQtyToParentUnit(Some(q), a, b)), b, p)
  {
    var na, nb, np := Normalize(a), Normalize(b), Normalize(p);
    assert SameTable(na, nb);
    ConvertWithinTable(q, a, b);
    ConvertWithinTable(q, a, p);
    var q' := ConvertVariantQtyToParentUnit(Some(q), a, b);
    ConvertWithinTable(q', b, p);
  }

  /** Units that share no table (including unknown units) fall back to 1:1. */
  lemma ConvertUnrelatedIsIdentity(q: real, a: string, b: string)
    requires q > 0.0
    requires !SameTable(Normalize(a), Normalize(b))
    ensures ConvertVariantQtyToParentUnit(Some(q), a, b) == q
  {
  }

  /** Converting a unit to itself is the identity on positive quantities. */
  lemma ConvertToSelf(q: real, u: string)
    requires q > 0.0
    ensures ConvertVariantQtyToParentUnit(Some(q), u, u) == q
  {
  }

  /** Converting there and back returns the positive quantity exactly, for any two unit names. */
  lemma ConvertRoundTrip(q: real, a: string, b: string)
    requires q > 0.0
    ensures ConvertVariantQtyToParentUnit(Some(ConvertVariantQtyToParentUnit(Some(q), a, b)), b, a) == q
  {
    var na, nb := Normalize(a), Normalize(b);
    if SameTable(na, nb) {
      assert SameTable(nb, na);
    }
  }

  lemma NormalizeGrams()
    ensures Normalize("g") == "g" && Lower("g") == "g"
  {
    StripUnpadded("g");
    LowerOfLowercase("g");
  }

  lemma NormalizeKilograms()
    ensures Normalize("kg") == "kg" && Lower("kg") == "kg"
  {
    StripUnpadded("kg");
    LowerOfLowercase("kg");
  }

  lemma NormalizeMillilitres()
    ensures Normalize("ml") == "ml" && Lower("ml") == "ml"
  {
    StripUnpadded("ml");
    LowerOfLowercase("ml");
  }

  lemma NormalizeLitres()
    ensures Normalize("l") == "l" && Lower("l") == "l"
  {
    StripUnpadded("l");
    LowerOfLowercase("l");
  }

  /** 1000 g is 1 kg, 1 kg is 1000 g, 250 ml is 0.25 l, and kg to ml falls back to 1:1. */
  lemma ConvertExamples()
    ensures ConvertVariantQtyToParentUnit(Some(1000.0), "g", "kg") == 1.0
    ensures ConvertVariantQtyToParentUnit(Some(1.0), "kg", "g") == 1000.0
    ensures ConvertVariantQtyToParentUnit(Some(250.0), "ml", "l") == 0.25
    ensures ConvertVariantQtyToParentUnit(Some(3.0), "kg", "ml") == 3.0
  {
    NormalizeGrams();
    NormalizeKilograms();
    NormalizeMillilitres();
    NormalizeLitres();
  }

  /** Surrounding blanks and upper case do not matter: " Kg" to "GRAMS" multiplies by 1000. */
  lemma ConvertIgnoresCaseAndBlanks()
    ensures ConvertVariantQtyToParentUnit(Some(2.0), " Kg", "GRAMS") == 2000.0
  {
    var kg := " Kg";
    assert IsPySpace(kg[0]) && LStrip(kg) == LStrip(kg[1..]) && kg[1..] == "Kg";
    StripUnpadded("Kg");
    assert LStrip("Kg") == "Kg";
    assert Strip(kg) == "Kg";
    assert Lower("Kg") == "kg";
    StripUnpadded("GRAMS");
    assert Lower("GRAMS") == "grams";
  }

  // ---------------------------------------------------------------- convert_base_to_unit

  /** The pairwise conversion kg<->g and l<->ml, after lower() only (no strip). */
  function ConvertBaseToUnit(qty: real, baseUnit: string, targetUnit: string): (r: real)
  {
    var b := Lower(baseUnit);
    var t := Lower(targetUnit);
    if b == t then qty
    else if b == "kg" && t == "g" then qty * 1000.0
    else if b == "g" && t == "kg" then qty / 1000.0
    else if b == "l" && t == "ml" then qty * 1000.0
    else if b == "ml" && t == "l" then qty / 1000.0
    else qty
  }

  /** The pairwise conversion undoes itself, for every quantity and every pair of unit names. */
  lemma ConvertBaseToUnitRoundTrip(q: real, a: string, b: string)
    ensures ConvertBaseToUnit(ConvertBaseToUnit(q, a, b), b, a) == q
  {
  }

  /** The short symbol of each unit of the two tables. */
  function SymbolOf(s: Scale): string {
    match s
    case Scale(Weight, false) => "kg"
    case Scale(Weight, true) => "g"
    case Scale(Volume, false) => "l"
    case Scale(Volume, true) => "ml"
  }

  /** Each symbol is its own normal form and names its own unit of the tables. */
  lemma {:induction false} SymbolClassifies(s: Scale)
    ensures Normalize(SymbolOf(s)) == SymbolOf(s) && Lower(SymbolOf(s)) == SymbolOf(s)
    ensures Classify(SymbolOf(s)) == Some(s)
  {
    match s
    case Scale(Weight, false) => NormalizeKilograms();
    case Scale(Weight, true) => NormalizeGrams();
    case Scale(Volume, false) => NormalizeLitres();
    case Scale(Volume, true) => NormalizeMillilitres();
  }

  /** The pairwise conversion between two symbols: x1000 from the base unit to its milli unit, /1000 back. */
  lemma BaseToUnitOfSymbols(q: real, sa: Scale, sb: Scale)
    ensures ConvertBaseToUnit(q, SymbolOf(sa), SymbolOf(sb))
            == if sa.family != sb.family || sa.milli == sb.milli then q
               else if sa.milli then q / 1000.0 else q * 1000.0
  {
    SymbolClassifies(sa);
    SymbolClassifies(sb);
  }

  /** On its four symbols and a positive quantity it agrees with the table conversion. */
  lemma ConvertBaseToUnitAgrees(q: real, sa: Scale, sb: Scale)
    requires q > 0.0
    ensures ConvertBaseToUnit(q, SymbolOf(sa), SymbolOf(sb))
            == ConvertVariantQtyToParentUnit(Some(q), SymbolOf(sa), SymbolOf(sb))
  {
    SymbolClassifies(sa);
    SymbolClassifies(sb);
    BaseToUnitOfSymbols(q, sa, sb);
  }

  /** Unlike the table conversion, the pairwise one does not know 'kilogram'. */
  lemma ConvertBaseToUnitIgnoresAliases()
    ensures ConvertBaseToUnit(1.0, "kilogram", "g") == 1.0
    ensures ConvertVariantQtyToParentUnit(Some(1.0), "kilogram", "g") == 1000.0
  {
    StripUnpadded("kilogram");
    LowerOfLowercase("kilogram");
    NormalizeGrams();
  }
}
