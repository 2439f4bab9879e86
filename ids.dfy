/**
 * Sequential identifiers: the next id is the prefix followed by (largest number
 * found among the existing ids + 1), zero-padded to four digits. Products and
 * adjustments recognise `^PRD-(\d{4})$`-shaped ids; pincodes, delivery types,
 * customers and orders read the number as int() of a '-'-separated field.
 * The existing ids are the concatenation of all scan pages.
 */
module IdAllocation {
  import opened Wrappers
  import opened Text

  /** How an existing id yields its number. */
  datatype Scheme =
    | ExactFourDigits      // re.match(r'^P(\d{4})$', id)
    | AtLeastFourDigits    // re.match(r'^P(\d{4,})$', id): the corrected product/adjustment pattern
    | SplitField(index: nat)  // id.startswith(P) and int(id.split('-')[index])

  /** Python's `$` also matches just before a final newline. */
  function DropFinalNewline(s: string): string {
    if |s| > 0 && s[|s| - 1] == '\n' then s[..|s| - 1] else s
  }

  predicate HasPrefix(s: string, prefix: string) {
    |prefix| <= |s| && s[..|prefix|] == prefix
  }

  /** The number an existing id contributes, or None when the id does not match. */
  function MatchNumber(scheme: Scheme, prefix: string, id: string): Option<nat> {
    if !HasPrefix(id, prefix) then None
    else
      var body := DropFinalNewline(id[|prefix|..]);
      match scheme
      case ExactFourDigits =>
        if |body| == 4 && AllDigits(body) then Some(DigitsValue(body)) else None
      case AtLeastFourDigits =>
        if |body| >= 4 && AllDigits(body) then Some(DigitsValue(body)) else None
      case SplitField(k) =>
        match Field(id, k)
        case None => None
        case Some(f) => PyInt(f)
  }

  /** The numbers the ids yield, position by position. */
  function Numbers(scheme: Scheme, prefix: string, ids: seq<string>): (r: seq<Option<nat>>)
    ensures |r| == |ids|
    ensures forall k :: 0 <= k < |ids| ==> r[k] == MatchNumber(scheme, prefix, ids[k])
  {
    seq(|ids|, k requires 0 <= k < |ids| => MatchNumber(scheme, prefix, ids[k]))
  }

  /** `max(numbers) if numbers else 0`, over the ids that matched. */
  function MaxSome(xs: seq<Option<nat>>): (m: nat)
    ensures forall k :: 0 <= k < |xs| && xs[k].Some? ==> xs[k].value <= m
    ensures m == 0 || exists k :: 0 <= k < |xs| && xs[k] == Some(m)
  {
    if xs == [] then 0
    else
      var init := xs[..|xs| - 1];
      var rest := MaxSome(init);
      assert forall k :: 0 <= k < |init| ==> xs[k] == init[k];
      match xs[|xs| - 1]
      case Some(n) => if n > rest then n else rest
      case None => rest
  }

  /** The largest number among the ids that match, 0 when none does. */
  function MaxMatched(scheme: Scheme, prefix: string, ids: seq<string>): nat {
    MaxSome(Numbers(scheme, prefix, ids))
  }

  /** `f"{prefix}{n:04d}"`. */
  function FormatId(prefix: string, n: nat): string {
    prefix + ZeroPad(n, 4)
  }

  function NextIdSpec(scheme: Scheme, prefix: string, ids: seq<string>): string {
    FormatId(prefix, MaxMatched(scheme, prefix, ids) + 1)
  }

  lemma MaxSomeStep(xs: seq<Option<nat>>, i: int)
    requires 0 <= i < |xs|
    ensures MaxSome(xs[..i + 1])
            == if xs[i].Some? && xs[i].value > MaxSome(xs[..i]) then xs[i].value else MaxSome(xs[..i])
  {
    assert xs[..i + 1][..i] == xs[..i];
  }

  lemma NextIdOfMax(scheme: Scheme, prefix: string, ids: seq<string>, m: nat)
    requires m == MaxMatched(scheme, prefix, ids)
    ensures NextIdSpec(scheme, prefix, ids) == FormatId(prefix, m + 1)
  {
  }

  /** The scan loop: keeps the largest number seen so far. */
  method NextSequentialId(scheme: Scheme, prefix: string, ids: seq<string>) returns (id: string)
    ensures id == NextIdSpec(scheme, prefix, ids)
  {
    ghost var numbers := Numbers(scheme, prefix, ids);
    var maxNumber := 0;
    for i := 0 to |ids|
      invariant maxNumber == MaxSome(numbers[..i])
    {
      MaxSomeStep(numbers, i);
      var m := MatchNumber(scheme, prefix, ids[i]);
      assert m == numbers[i];
      if m.Some? && m.value > maxNumber {
        maxNumber := m.value;
      }
    }
    assert numbers[..|ids|] == numbers;
    id := FormatId(prefix, maxNumber + 1);
    NextIdOfMax(scheme, prefix, ids, maxNumber);
  }

  /**
   * Whenever the scheme reads back the number of the id it produces, that id is
   * new: every existing id that matches carries a smaller number.
   */
  lemma {:induction false} NextIdFresh(scheme: Scheme, prefix: string, ids: seq<string>)
    requires var n := MaxMatched(scheme, prefix, ids) + 1;
             MatchNumber(scheme, prefix, FormatId(prefix, n)) == Some(n)
    ensures NextIdSpec(scheme, prefix, ids) !in ids
  {
    var numbers := Numbers(scheme, prefix, ids);
    forall k | 0 <= k < |ids|
      ensures ids[k] != NextIdSpec(scheme, prefix, ids)
    {
      assert numbers[k] == MatchNumber(scheme, prefix, ids[k]);
    }
  }

  // ---------------------------------------------------------------- reading back

  lemma FormatIdParts(prefix: string, n: nat)
    ensures HasPrefix(FormatId(prefix, n), prefix)
    ensures FormatId(prefix, n)[|prefix|..] == ZeroPad(n, 4)
    ensures DropFinalNewline(ZeroPad(n, 4)) == ZeroPad(n, 4)
  {
    var d := ZeroPad(n, 4);
    assert IsDigit(d[|d| - 1]);
    assert (prefix + d)[..|prefix|] == prefix;
  }

  function Pow10(k: nat): nat {
    if k == 0 then 1 else 10 * Pow10(k - 1)
  }

  lemma {:induction false} DigitsLength(n: nat, k: nat)
    requires 1 <= k && n < Pow10(k)
    ensures |NatToDigits(n)| <= k
    decreases k
  {
    if n >= 10 {
      DigitsLength(n / 10, k - 1);
    }
  }

  lemma {:induction false} DigitsAtLeastValue(s: string)
    requires AllDigits(s)
    ensures DigitsValue(s) < Pow10(|s|)
    decreases |s|
  {
    if s != [] {
      DigitsAtLeastValue(s[..|s| - 1]);
    }
  }

  /** Four-digit ids read back while the number stays below 10000. */
  lemma {:induction false} ReadBackExactFour(prefix: string, n: nat)
    requires n < 10000
    ensures MatchNumber(ExactFourDigits, prefix, FormatId(prefix, n)) == Some(n)
  {
    FormatIdParts(prefix, n);
    DigitsLength(n, 4);
  }

  /** An exact-four-digit match never exceeds 9999. */
  lemma {:induction false} ExactFourBelow10000(prefix: string, id: string)
    requires MatchNumber(ExactFourDigits, prefix, id).Some?
    ensures MatchNumber(ExactFourDigits, prefix, id).value < 10000
  {
    DigitsAtLeastValue(DropFinalNewline(id[|prefix|..]));
  }

  lemma {:induction false} ReadBackAtLeastFour(prefix: string, n: nat)
    ensures MatchNumber(AtLeastFourDigits, prefix, FormatId(prefix, n)) == Some(n)
  {
    FormatIdParts(prefix, n);
  }

  lemma DigitsAreDashFree(s: string)
    requires AllDigits(s)
    ensures '-' !in s
  {
    forall i | 0 <= i < |s|
      ensures s[i] != '-'
    {
      assert IsDigit(s[i]);
    }
  }

  /** int(id.split('-')[1]) reads back an id whose prefix is a dash-free word and one '-'. */
  lemma {:induction false} ReadBackSplit(word: string, n: nat)
    requires '-' !in word
    ensures MatchNumber(SplitField(1), word + "-", FormatId(word + "-", n)) == Some(n)
  {
    var d := ZeroPad(n, 4);
    FormatIdParts(word + "-", n);
    assert FormatId(word + "-", n) == word + "-" + d;
    AfterDashSkipsDashFree(word, d);
    DigitsAreDashFree(d);
    PyIntOfPadded(n, 4);
  }

  /** Splitting on '-' past a dash-free word moves every later field one place forward. */
  lemma FieldAfterWord(word: string, rest: string, k: nat)
    requires '-' !in word
    ensures Field(word + "-" + rest, k + 1) == Field(rest, k)
  {
    AfterDashSkipsDashFree(word, rest);
  }

  /** int(id.split('-')[2]) reads back an id `<w1>-<w2>-NNNN` built from two dash-free words. */
  lemma {:induction false} ReadBackTwoWords(w1: string, w2: string, n: nat)
    requires '-' !in w1 && '-' !in w2
    ensures MatchNumber(SplitField(2), w1 + "-" + w2 + "-", FormatId(w1 + "-" + w2 + "-", n)) == Some(n)
  {
    var d := ZeroPad(n, 4);
    var prefix := w1 + "-" + w2 + "-";
    FormatIdParts(prefix, n);
    var id := FormatId(prefix, n);
    assert id == w1 + "-" + (w2 + "-" + d);
    FieldAfterWord(w1, w2 + "-" + d, 1);
    FieldAfterWord(w2, d, 0);
    DigitsAreDashFree(d);
    PyIntOfPadded(n, 4);
  }

  // ---------------------------------------------------------------- the generators

  /** The four-digit generators: the id is fresh as long as the numbering has not reached 9999. */
  method NextFourDigitId(prefix: string, existing: seq<string>) returns (id: string)
    ensures id == NextIdSpec(ExactFourDigits, prefix, existing)
    ensures MaxMatched(ExactFourDigits, prefix, existing) < 9999 ==> id !in existing
  {
    id := NextSequentialId(ExactFourDigits, prefix, existing);
    var m := MaxMatched(ExactFourDigits, prefix, existing);
    if m < 9999 {
      ReadBackExactFour(prefix, m + 1);
      NextIdFresh(ExactFourDigits, prefix, existing);
    }
  }

  /** generate_product_id: PRD- and exactly four digits. */
  method GenerateProductId(existing: seq<string>) returns (id: string)
    ensures id == NextIdSpec(ExactFourDigits, "PRD-", existing)
    ensures MaxMatched(ExactFourDigits, "PRD-", existing) < 9999 ==> id !in existing
  {
    id := NextFourDigitId("PRD-", existing);
  }

  /** generate_adjustment_id: ADJ- and exactly four digits. */
  method GenerateAdjustmentId(existing: seq<string>) returns (id: string)
    ensures id == NextIdSpec(ExactFourDigits, "ADJ-", existing)
    ensures MaxMatched(ExactFourDigits, "ADJ-", existing) < 9999 ==> id !in existing
  {
    id := NextFourDigitId("ADJ-", existing);
  }

  /** The product generator with the pattern widened to four or more digits: always fresh. */
  method GenerateProductIdCorrected(existing: seq<string>) returns (id: string)
    ensures id == NextIdSpec(AtLeastFourDigits, "PRD-", existing)
    ensures id !in existing
  {
    id := NextSequentialId(AtLeastFourDigits, "PRD-", existing);
    ReadBackAtLeastFour("PRD-", MaxMatched(AtLeastFourDigits, "PRD-", existing) + 1);
    NextIdFresh(AtLeastFourDigits, "PRD-", existing);
  }

  /** The generators reading `int(id.split('-')[1])` after a dash-free word: always fresh. */
  method NextDashFieldId(word: string, existing: seq<string>) returns (id: string)
    requires '-' !in word
    ensures id == NextIdSpec(SplitField(1), word + "-", existing)
    ensures id !in existing
  {
    var prefix := word + "-";
    id := NextSequentialId(SplitField(1), prefix, existing);
    ReadBackSplit(word, MaxMatched(SplitField(1), prefix, existing) + 1);
    NextIdFresh(SplitField(1), prefix, existing);
  }

  /** generate_pincode_id: PIN-, number from split('-')[1]. */
  method GeneratePincodeId(existing: seq<string>) returns (id: string)
    ensures id == NextIdSpec(SplitField(1), "PIN-", existing)
    ensures id !in existing
  {
    var word := "PIN";
    assert word + "-" == "PIN-";
    id := NextDashFieldId(word, existing);
  }

  /** generate_delivery_type_id: DT-, number from split('-')[1]. */
  method GenerateDeliveryTypeId(existing: seq<string>) returns (id: string)
    ensures id == NextIdSpec(SplitField(1), "DT-", existing)
    ensures id !in existing
  {
    var word := "DT";
    assert word + "-" == "DT-";
    id := NextDashFieldId(word, existing);
  }

  /** generate_customer_id: CUST-, number from split('-')[1]. */
  method GenerateCustomerId(existing: seq<string>) returns (id: string)
    ensures id == NextIdSpec(SplitField(1), "CUST-", existing)
    ensures id !in existing
  {
    var word := "CUST";
    assert word + "-" == "CUST-";
    id := NextDashFieldId(word, existing);
  }

  /**
   * generate_order_id: numbering restarts every day; only ids with today's
   * prefix ORD-<yyyymmdd>- count, the number is split('-')[2].
   */
  method GenerateOrderId(today: string, existing: seq<string>) returns (id: string)
    requires '-' !in today
    ensures id == NextIdSpec(SplitField(2), "ORD-" + today + "-", existing)
    ensures HasPrefix(id, "ORD-" + today + "-")
    ensures id !in existing
  {
    var word := "ORD";
    assert word + "-" + today + "-" == "ORD-" + today + "-";
    id := NextTwoWordId(word, today, existing);
  }

  /** The generator reading `int(id.split('-')[2])` after two dash-free words: always fresh. */
  method NextTwoWordId(w1: string, w2: string, existing: seq<string>) returns (id: string)
    requires '-' !in w1 && '-' !in w2
    ensures id == NextIdSpec(SplitField(2), w1 + "-" + w2 + "-", existing)
    ensures HasPrefix(id, w1 + "-" + w2 + "-")
    ensures id !in existing
  {
    var prefix := w1 + "-" + w2 + "-";
    id := NextSequentialId(SplitField(2), prefix, existing);
    ReadBackTwoWords(w1, w2, MaxMatched(SplitField(2), prefix, existing) + 1);
    NextIdFresh(SplitField(2), prefix, existing);
    NextIdHasPrefix(SplitField(2), prefix, existing);
  }

  lemma NextIdHasPrefix(scheme: Scheme, prefix: string, ids: seq<string>)
    ensures HasPrefix(NextIdSpec(scheme, prefix, ids), prefix)
  {
    FormatIdParts(prefix, MaxMatched(scheme, prefix, ids) + 1);
  }

  lemma FormatSmall()
    ensures FormatId("PRD-", 1) == "PRD-0001" && FormatId("PRD-", 2) == "PRD-0002"
    ensures FormatId("PRD-", 3) == "PRD-0003" && FormatId("PRD-", 4) == "PRD-0004"
  {
    assert Zeros(3) == "000";
  }

  lemma Digits999()
    ensures NatToDigits(999) == "999"
  {
    assert NatToDigits(99) == NatToDigits(9) + "9";
  }

  lemma Pad9999()
    ensures FormatId("PRD-", 9999) == "PRD-9999"
  {
    Digits999();
    assert NatToDigits(9999) == NatToDigits(999) + "9";
  }

  lemma Digits1000()
    ensures NatToDigits(1000) == "1000"
  {
    assert NatToDigits(100) == NatToDigits(10) + "0";
  }

  lemma Pad10000()
    ensures FormatId("PRD-", 10000) == "PRD-10000"
  {
    Digits1000();
    assert NatToDigits(10000) == NatToDigits(1000) + "0";
  }

  /** The largest of two numbers where the second id may not have matched. */
  lemma MaxSomeOfTwo(x: nat, y: Option<nat>)
    ensures MaxSome([Some(x)]) == x
    ensures MaxSome([Some(x), y]) == if y.Some? && y.value > x then y.value else x
  {
    var one := [Some(x)];
    var none: seq<Option<nat>> := [];
    assert one[..0] == none;
    assert [Some(x), y][..1] == one;
  }

  lemma MaxSomeOfThree(x: nat, y: nat, z: nat)
    ensures MaxSome([Some(x), Some(y), Some(z)]) == if x >= y && x >= z then x else if y >= z then y else z
  {
    var xs := [Some(x), Some(y), Some(z)];
    MaxSomeOfTwo(x, Some(y));
    assert xs[..2] == [Some(x), Some(y)];
  }

  lemma NumbersOfThree(scheme: Scheme, prefix: string, ids: seq<string>)
    requires |ids| == 3
    ensures Numbers(scheme, prefix, ids)
            == [MatchNumber(scheme, prefix, ids[0]), MatchNumber(scheme, prefix, ids[1]), MatchNumber(scheme, prefix, ids[2])]
  {
  }

  /** Three four-digit ids: the largest number among them is the largest of the three. */
  lemma {:induction false} MaxOfThreeIds(prefix: string, x: nat, y: nat, z: nat)
    requires x < 10000 && y < 10000 && z < 10000
    ensures MaxMatched(ExactFourDigits, prefix, [FormatId(prefix, x), FormatId(prefix, y), FormatId(prefix, z)])
            == if x >= y && x >= z then x else if y >= z then y else z
  {
    var ids := [FormatId(prefix, x), FormatId(prefix, y), FormatId(prefix, z)];
    ReadBackExactFour(prefix, x);
    ReadBackExactFour(prefix, y);
    ReadBackExactFour(prefix, z);
    NumbersOfThree(ExactFourDigits, prefix, ids);
    assert Numbers(ExactFourDigits, prefix, ids) == [Some(x), Some(y), Some(z)];
    MaxSomeOfThree(x, y, z);
  }

  /** With no ids the first product id is PRD-0001. */
  lemma FirstProductId()
    ensures NextIdSpec(ExactFourDigits, "PRD-", []) == "PRD-0001"
  {
    assert Zeros(3) == "000";
  }

  /** After PRD-0001, PRD-0003 and PRD-0002 the next product id is PRD-0004, whatever the order of the scan. */
  lemma ProductIdAfterThree()
    ensures NextIdSpec(ExactFourDigits, "PRD-", ["PRD-0001", "PRD-0003", "PRD-0002"]) == "PRD-0004"
  {
    FormatSmall();
    var prefix := "PRD-";
    MaxOfThreeIds(prefix, 1, 3, 2);
  }

  /** PRD-10000 has five digits, so the four-digit pattern does not recognise it. */
  lemma {:induction false} FiveDigitsNotMatched(prefix: string)
    ensures MatchNumber(ExactFourDigits, prefix, FormatId(prefix, 10000)) == None
  {
    FormatIdParts(prefix, 10000);
    Digits1000();
    assert NatToDigits(10000) == NatToDigits(1000) + "0";
  }

  /**
   * As written, the four-digit pattern makes the product numbering stall after
   * PRD-9999: the next id is PRD-10000, which the pattern does not recognise, so
   * the id after that is PRD-10000 again.
   */
  lemma ProductIdRepeatsAfter9999()
    ensures NextIdSpec(ExactFourDigits, "PRD-", ["PRD-9999"]) == "PRD-10000"
    ensures NextIdSpec(ExactFourDigits, "PRD-", ["PRD-9999", "PRD-10000"]) == "PRD-10000"
  {
    Pad9999();
    Pad10000();
    var prefix := "PRD-";
    MaxStaysAt9999(prefix);
  }

  lemma {:induction false} MaxStaysAt9999(prefix: string)
    ensures MaxMatched(ExactFourDigits, prefix, [FormatId(prefix, 9999)]) == 9999
    ensures MaxMatched(ExactFourDigits, prefix, [FormatId(prefix, 9999), FormatId(prefix, 10000)]) == 9999
  {
    var a, b := FormatId(prefix, 9999), FormatId(prefix, 10000);
    ReadBackExactFour(prefix, 9999);
    FiveDigitsNotMatched(prefix);
    NumbersOfOne(ExactFourDigits, prefix, a);
    NumbersOfTwo(ExactFourDigits, prefix, a, b);
    MaxSomeOfTwo(9999, None);
  }

  lemma NumbersOfOne(scheme: Scheme, prefix: string, a: string)
    ensures Numbers(scheme, prefix, [a]) == [MatchNumber(scheme, prefix, a)]
  {
  }

  lemma NumbersOfTwo(scheme: Scheme, prefix: string, a: string, b: string)
    ensures Numbers(scheme, prefix, [a, b]) == [MatchNumber(scheme, prefix, a), MatchNumber(scheme, prefix, b)]
  {
  }

  // ---------------------------------------------------------------- variant ids

  /** generate_variant_id: `f"{productId}-v{index:02d}"`. */
  function VariantId(productId: string, index: nat): string {
    productId + "-v" + ZeroPad(index, 2)
  }

  /** Different indices give different variant ids of the same product. */
  lemma {:induction false} VariantIdInjective(productId: string, i: nat, j: nat)
    requires VariantId(productId, i) == VariantId(productId, j)
    ensures i == j
  {
    var n := |productId| + 2;
    assert VariantId(productId, i)[n..] == ZeroPad(i, 2);
    assert VariantId(productId, j)[n..] == ZeroPad(j, 2);
  }
}
