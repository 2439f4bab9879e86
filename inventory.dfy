/**
 * The product table and the stock-adjustment transaction:
 * update_product_stock_for_adjustment (one read-modify-write of a product
 * record), get_products_for_adjustment (the snapshot of selectable items) and
 * create_stock_adjustment (validate lines, persist the adjustment once, apply
 * the lines in order).
 */
module Inventory {
  import opened Wrappers
  import opened Ledger

  /** The product table is keyed by productID. */
  predicate UniqueIds(ps: seq<Product>) {
    forall i, j :: 0 <= i < j < |ps| ==> ps[i].productId != ps[j].productId
  }

  /** get_item on the product table: the position of the record with this id. */
  function IndexOfProduct(ps: seq<Product>, id: string): (r: Option<nat>)
    ensures r.None? <==> forall i :: 0 <= i < |ps| ==> ps[i].productId != id
    ensures r.Some? ==> r.value < |ps| && ps[r.value].productId == id
                        && forall i :: 0 <= i < r.value ==> ps[i].productId != id
  {
    if ps == [] then None
    else if ps[0].productId == id then Some(0)
    else match IndexOfProduct(ps[1..], id)
      case None => None
      case Some(k) => Some(k + 1)
  }

  /**
   * The table after update_product_stock_for_adjustment: the one record with the
   * product id is replaced by its adjusted copy; an unknown product or variant
   * leaves the table as it was.
   */
  function AfterAdjustment(ps: seq<Product>, productId: string, variantId: Option<string>,
                           t: AdjustmentType, q: real): (r: seq<Product>)
    ensures |r| == |ps| && forall i :: 0 <= i < |ps| ==> r[i].productId == ps[i].productId
  {
    match IndexOfProduct(ps, productId)
    case None => ps
    case Some(i) =>
      match AdjustProduct(ps[i], variantId, t, q)
      case None => ps
      case Some(p) => ps[i := p]
  }

  /** The table update once the record's position is known. */
  lemma AfterAdjustmentAt(ps: seq<Product>, productId: string, variantId: Option<string>,
                          t: AdjustmentType, q: real, i: int)
    requires 0 <= i < |ps| && ps[i].productId == productId
    requires forall j :: 0 <= j < i ==> ps[j].productId != productId
    ensures AfterAdjustment(ps, productId, variantId, t, q)
            == match AdjustProduct(ps[i], variantId, t, q) case None => ps case Some(p) => ps[i := p]
  {
    assert IndexOfProduct(ps, productId) == Some(i);
  }

  /** The variant branch once the first match is known. */
  lemma AdjustVariantAt(p: Product, id: string, t: AdjustmentType, q: real, k: int)
    requires IsFirstMatch(p.variants, id, k)
    ensures AdjustVariantOf(p, id, t, q) == Some(p.(variants := p.variants[k := AdjustVariant(p.variants[k], t, q)]))
  {
    assert FirstVariantIndex(p.variants, id) == Some(k);
  }

  /**
   * The variant branch of update_product_stock_for_adjustment: the first variant
   * with the id gets the adjusted levels; None when no variant has the id.
   */
  method AdjustFirstVariant(product: Product, id: string, t: AdjustmentType, q: real) returns (r: Option<Product>)
    ensures r == AdjustVariantOf(product, id, t, q)
    ensures r.Some? ==> r.value.productId == product.productId
  {
    var variants := product.variants;
    var k := 0;
    while k < |variants|
      invariant 0 <= k <= |variants| && variants == product.variants
      invariant forall j :: 0 <= j < k ==> variants[j].id != id
    {
      if variants[k].id == id {
        variants := variants[k := AdjustVariant(variants[k], t, q)];
        AdjustVariantAt(product, id, t, q, k);
        return Some(product.(variants := variants));
      }
      k := k + 1;
    }
    return None;
  }

  /** Adjusting stock never renames a record, so ids stay unique. */
  lemma AfterAdjustmentKeepsIds(ps: seq<Product>, productId: string, variantId: Option<string>,
                                t: AdjustmentType, q: real)
    requires UniqueIds(ps)
    ensures UniqueIds(AfterAdjustment(ps, productId, variantId, t, q))
  {
  }

  /** Only the addressed record can change. */
  lemma AfterAdjustmentIsLocal(ps: seq<Product>, productId: string, variantId: Option<string>,
                               t: AdjustmentType, q: real, j: int)
    requires 0 <= j < |ps| && ps[j].productId != productId
    ensures AfterAdjustment(ps, productId, variantId, t, q)[j] == ps[j]
  {
  }

  // ---------------------------------------------------------------- the selection snapshot

  /** One selectable line of the adjustment menu, with availability = stock - in cart. */
  datatype StockItem = StockItem(
    isVariant: bool, productId: string, variantId: Option<string>, name: string,
    stock: int, available: int, inCart: int, unit: string, purchasePrice: real, salePrice: real)

  function ParentItem(p: Product): StockItem {
    StockItem(false, p.productId, None, p.name, p.stock, p.stock - p.inCart, p.inCart,
              p.unit, p.purchasePrice, p.salePrice)
  }

  function VariantItem(p: Product, v: Variant): StockItem {
    StockItem(true, p.productId, Some(v.id), v.name, v.stock, v.stock - v.inCart, v.inCart,
              v.unit, v.purchasePrice, v.salePrice)
  }

  /**
   * A parent-stocked product lists only itself; a variant-stocked one lists
   * itself and then each of its variants, in order.
   */
  function ProductItems(p: Product): (r: seq<StockItem>)
    ensures |r| == 1 + (if p.stockMode == VariantMode then |p.variants| else 0)
    ensures r[0] == ParentItem(p)
    ensures forall k :: 1 <= k < |r| ==> r[k] == VariantItem(p, p.variants[k - 1])
  {
    [ParentItem(p)]
    + if p.stockMode == VariantMode
      then seq(|p.variants|, k requires 0 <= k < |p.variants| => VariantItem(p, p.variants[k]))
      else []
  }

  /** get_products_for_adjustment: the items of every product, in table order. */
  function ItemsForAdjustment(ps: seq<Product>): (r: seq<StockItem>)
    ensures forall k :: 0 <= k < |r| ==> r[k].available == r[k].stock - r[k].inCart
    ensures |r| >= |ps|
  {
    if ps == [] then []
    else ItemsForAdjustment(ps[..|ps| - 1]) + ProductItems(ps[|ps| - 1])
  }

  /**
   * The snapshot is built product by product in table order: the items of a
   * concatenated table are the concatenated items.
   */
  lemma {:induction false} ItemsForAdjustmentAppend(a: seq<Product>, b: seq<Product>)
    ensures ItemsForAdjustment(a + b) == ItemsForAdjustment(a) + ItemsForAdjustment(b)
    decreases |b|
  {
    if b == [] {
      assert a + b == a;
    } else {
      var c := b[..|b| - 1];
      var last := b[|b| - 1];
      assert (a + b)[..|a + b| - 1] == a + c;
      assert (a + b)[|a + b| - 1] == last;
      assert ItemsForAdjustment(a + b) == ItemsForAdjustment(a + c) + ProductItems(last);
      assert ItemsForAdjustment(b) == ItemsForAdjustment(c) + ProductItems(last);
      ItemsForAdjustmentAppend(a, c);
    }
  }

  /** A one-product table lists exactly that product's items. */
  lemma ItemsOfOneProduct(p: Product)
    ensures ItemsForAdjustment([p]) == ProductItems(p)
  {
    assert [p][..0] == [];
  }

  // ---------------------------------------------------------------- validation and lines

  /** What was typed for a line's quantity: nothing, a text that is not a number, or an amount. */
  datatype Entry = Blank | Unreadable | Amount(value: real)

  /** An entered item number (already minus one) with the quantity typed for it. */
  datatype Request = Request(pick: int, qty: Entry)

  datatype Candidate = Candidate(item: StockItem, qty: Entry)

  /** Item numbers outside the list are dropped before any quantity is asked. */
  function SelectCandidates(items: seq<StockItem>, rs: seq<Request>): (r: seq<Candidate>)
    ensures |r| <= |rs|
    ensures forall k :: 0 <= k < |r| ==> r[k].item in items
    ensures r == [] <==> forall k :: 0 <= k < |rs| ==> !(0 <= rs[k].pick < |items|)
  {
    if rs == [] then []
    else
      var rest := SelectCandidates(items, rs[..|rs| - 1]);
      var last := rs[|rs| - 1];
      if 0 <= last.pick < |items| then rest + [Candidate(items[last.pick], last.qty)] else rest
  }

  /**
   * Item numbers are resolved one by one: the candidates of concatenated entries
   * are the concatenated candidates.
   */
  lemma {:induction false} SelectCandidatesAppend(items: seq<StockItem>, a: seq<Request>, b: seq<Request>)
    ensures SelectCandidates(items, a + b) == SelectCandidates(items, a) + SelectCandidates(items, b)
    decreases |b|
  {
    if b == [] {
      assert a + b == a;
    } else {
      var c := b[..|b| - 1];
      var last := b[|b| - 1];
      var tail := if 0 <= last.pick < |items| then [Candidate(items[last.pick], last.qty)] else [];
      assert (a + b)[..|a + b| - 1] == a + c;
      assert (a + b)[|a + b| - 1] == last;
      assert SelectCandidates(items, a + b) == SelectCandidates(items, a + c) + tail;
      assert SelectCandidates(items, b) == SelectCandidates(items, c) + tail;
      SelectCandidatesAppend(items, a, c);
    }
  }

  /** When every entered number is in range, each entry gives its item with its quantity, in order. */
  lemma {:induction false} SelectCandidatesAllInRange(items: seq<StockItem>, rs: seq<Request>)
    requires forall k :: 0 <= k < |rs| ==> 0 <= rs[k].pick < |items|
    ensures |SelectCandidates(items, rs)| == |rs|
    ensures forall k :: 0 <= k < |rs| ==> SelectCandidates(items, rs)[k] == Candidate(items[rs[k].pick], rs[k].qty)
    decreases |rs|
  {
    if rs != [] {
      var init := rs[..|rs| - 1];
      var last := rs[|rs| - 1];
      assert forall k :: 0 <= k < |init| ==> init[k] == rs[k];
      SelectCandidatesAllInRange(items, init);
      assert SelectCandidates(items, rs) == SelectCandidates(items, init) + [Candidate(items[last.pick], last.qty)];
    }
  }

  /** Some selected line has a quantity that is not a number. */
  predicate SomeUnreadable(cs: seq<Candidate>) {
    exists k :: 0 <= k < |cs| && cs[k].qty.Unreadable?
  }

  /** Some entry names an item of the list and has a quantity that is not a number. */
  predicate SomeUnreadableEntry(items: seq<StockItem>, rs: seq<Request>) {
    exists j :: 0 <= j < |rs| && 0 <= rs[j].pick < |items| && rs[j].qty.Unreadable?
  }

  lemma UnreadableAppend(a: seq<Candidate>, b: seq<Candidate>)
    ensures SomeUnreadable(a + b) <==> SomeUnreadable(a) || SomeUnreadable(b)
  {
    if SomeUnreadable(a + b) {
      var k :| 0 <= k < |a + b| && (a + b)[k].qty.Unreadable?;
      if k >= |a| {
        assert b[k - |a|] == (a + b)[k];
      }
    }
    if SomeUnreadable(b) {
      var k :| 0 <= k < |b| && b[k].qty.Unreadable?;
      assert (a + b)[|a| + k] == b[k];
    }
    if SomeUnreadable(a) {
      var k :| 0 <= k < |a| && a[k].qty.Unreadable?;
      assert (a + b)[k] == a[k];
    }
  }

  lemma UnreadableEntryStep(items: seq<StockItem>, rs: seq<Request>)
    requires rs != []
    ensures var last := rs[|rs| - 1];
            SomeUnreadableEntry(items, rs)
            <==> SomeUnreadableEntry(items, rs[..|rs| - 1]) || (0 <= last.pick < |items| && last.qty.Unreadable?)
  {
    var init := rs[..|rs| - 1];
    if SomeUnreadableEntry(items, init) {
      var j :| 0 <= j < |init| && 0 <= init[j].pick < |items| && init[j].qty.Unreadable?;
      assert rs[j] == init[j];
    }
    if SomeUnreadableEntry(items, rs) {
      var j :| 0 <= j < |rs| && 0 <= rs[j].pick < |items| && rs[j].qty.Unreadable?;
      if j < |init| {
        assert init[j] == rs[j];
      }
    }
  }

  /** Some selected line has a quantity that is not a number exactly when some in-range entry has one. */
  lemma {:induction false} SelectedUnreadable(items: seq<StockItem>, rs: seq<Request>)
    ensures SomeUnreadable(SelectCandidates(items, rs)) <==> SomeUnreadableEntry(items, rs)
    decreases |rs|
  {
    if rs != [] {
      var init := rs[..|rs| - 1];
      var last := rs[|rs| - 1];
      SelectedUnreadable(items, init);
      UnreadableEntryStep(items, rs);
      var tail := if 0 <= last.pick < |items| then [Candidate(items[last.pick], last.qty)] else [];
      assert SelectCandidates(items, rs) == SelectCandidates(items, init) + tail;
      UnreadableAppend(SelectCandidates(items, init), tail);
      if 0 <= last.pick < |items| {
        assert tail[0].qty == last.qty;
      } else {
        assert tail == [];
      }
    }
  }

  /** A line of an adjustment, with its price frozen at validation time. */
  datatype Line = Line(
    productId: string, variantId: Option<string>, name: string, quantity: real, unit: string,
    purchasePrice: real, totalPrice: real)

  /**
   * The line for one candidate, or None when it is skipped (no quantity, or one
   * that is not a number) or fails the guard.
   */
  function LineFor(c: Candidate, t: AdjustmentType): Option<Line> {
    if !c.qty.Amount? then None
    else if !Admissible(t, c.qty.value, c.item.available, c.item.inCart) then None
    else
      var it := c.item;
      Some(Line(it.productId, it.variantId, it.name, c.qty.value, it.unit, it.purchasePrice,
                it.purchasePrice * c.qty.value))
  }

  /** The accepted lines, in order; every one has a positive quantity and total = price × quantity. */
  function AcceptedLines(cs: seq<Candidate>, t: AdjustmentType): (r: seq<Line>)
    ensures |r| <= |cs|
    ensures forall k :: 0 <= k < |r| ==> r[k].quantity > 0.0
  {
    if cs == [] then []
    else
      var rest := AcceptedLines(cs[..|cs| - 1], t);
      match LineFor(cs[|cs| - 1], t)
      case None => rest
      case Some(line) => rest + [line]
  }

  /** A line's total is its purchase price times its quantity. */
  predicate Priced(line: Line) {
    line.totalPrice == line.purchasePrice * line.quantity
  }

  lemma LineForPriced(c: Candidate, t: AdjustmentType)
    ensures LineFor(c, t).Some? ==> Priced(LineFor(c, t).value)
  {
  }

  /** Every accepted line is priced at its item's purchase price: total = price × quantity. */
  lemma {:induction false} AcceptedLinesPriced(cs: seq<Candidate>, t: AdjustmentType)
    ensures forall k :: 0 <= k < |AcceptedLines(cs, t)| ==> Priced(AcceptedLines(cs, t)[k])
    decreases |cs|
  {
    if cs != [] {
      var n := |cs| - 1;
      AcceptedLinesPriced(cs[..n], t);
      AcceptedLinesStep(cs, n, t);
      assert cs[..n + 1] == cs;
      LineForPriced(cs[n], t);
    }
  }

  function LinesTotal(ls: seq<Line>): real {
    if ls == [] then 0.0 else LinesTotal(ls[..|ls| - 1]) + ls[|ls| - 1].totalPrice
  }

  /** A rejected line never aborts its siblings: acceptance is decided line by line. */
  lemma {:induction false} AcceptedLinesAppend(a: seq<Candidate>, b: seq<Candidate>, t: AdjustmentType)
    ensures AcceptedLines(a + b, t) == AcceptedLines(a, t) + AcceptedLines(b, t)
    decreases |b|
  {
    if b == [] {
      assert a + b == a;
    } else {
      assert (a + b)[..|a + b| - 1] == a + b[..|b| - 1];
      AcceptedLinesAppend(a, b[..|b| - 1], t);
    }
  }

  lemma {:induction false} LinesTotalAppend(a: seq<Line>, b: seq<Line>)
    ensures LinesTotal(a + b) == LinesTotal(a) + LinesTotal(b)
    decreases |b|
  {
    if b == [] {
      assert a + b == a;
    } else {
      assert (a + b)[..|a + b| - 1] == a + b[..|b| - 1];
      LinesTotalAppend(a, b[..|b| - 1]);
    }
  }

  lemma AcceptedLinesStep(cs: seq<Candidate>, i: int, t: AdjustmentType)
    requires 0 <= i < |cs|
    ensures AcceptedLines(cs[..i + 1], t)
            == if LineFor(cs[i], t).None? then AcceptedLines(cs[..i], t) else AcceptedLines(cs[..i], t) + [LineFor(cs[i], t).value]
  {
    assert cs[..i + 1][..i] == cs[..i];
  }

  lemma LineForCases(c: Candidate, t: AdjustmentType)
    ensures LineFor(c, t).None? <==> !c.qty.Amount? || !Admissible(t, c.qty.value, c.item.available, c.item.inCart)
    ensures LineFor(c, t).Some? ==>
              LineFor(c, t).value == Line(c.item.productId, c.item.variantId, c.item.name, c.qty.value, c.item.unit,
                                          c.item.purchasePrice, c.item.purchasePrice * c.qty.value)
  {
  }

  lemma LinesTotalStep(ls: seq<Line>, line: Line)
    ensures LinesTotal(ls + [line]) == LinesTotal(ls) + line.totalPrice
  {
    assert (ls + [line])[..|ls|] == ls;
  }

  /** At a non-negative purchase price a line's total is non-negative. */
  lemma LineForNonNegative(c: Candidate, t: AdjustmentType)
    requires c.item.purchasePrice >= 0.0
    ensures LineFor(c, t).Some? ==> LineFor(c, t).value.totalPrice >= 0.0
  {
  }

  /** With non-negative purchase prices the total is non-negative. */
  lemma {:induction false} LinesTotalNonNegative(cs: seq<Candidate>, t: AdjustmentType)
    requires forall k :: 0 <= k < |cs| ==> cs[k].item.purchasePrice >= 0.0
    ensures LinesTotal(AcceptedLines(cs, t)) >= 0.0
    decreases |cs|
  {
    if cs != [] {
      var n := |cs| - 1;
      LinesTotalNonNegative(cs[..n], t);
      AcceptedLinesStep(cs, n, t);
      assert cs[..n + 1] == cs;
      var line := LineFor(cs[n], t);
      if line.Some? {
        LineForNonNegative(cs[n], t);
        LinesTotalStep(AcceptedLines(cs[..n], t), line.value);
      }
    }
  }

  /**
   * Lines are judged against the snapshot, one by one: the same candidate
   * twice is accepted twice, whatever the first acceptance would have used up.
   */
  lemma RepeatedCandidateJudgedAlike(c: Candidate, t: AdjustmentType)
    ensures AcceptedLines([c, c], t) == AcceptedLines([c], t) + AcceptedLines([c], t)
  {
    AcceptedLinesAppend([c], [c], t);
    assert [c] + [c] == [c, c];
  }

  /** A candidate without a line leaves the accepted lines as they were. */
  lemma SkipStep(cs: seq<Candidate>, i: int, t: AdjustmentType)
    requires 0 <= i < |cs| && LineFor(cs[i], t).None?
    ensures AcceptedLines(cs[..i + 1], t) == AcceptedLines(cs[..i], t)
  {
    AcceptedLinesStep(cs, i, t);
  }

  /** An admissible candidate appends its line. */
  lemma TakeStep(cs: seq<Candidate>, i: int, t: AdjustmentType, lines: seq<Line>, line: Line)
    requires 0 <= i < |cs| && LineFor(cs[i], t) == Some(line)
    requires lines == AcceptedLines(cs[..i], t)
    ensures AcceptedLines(cs[..i + 1], t) == lines + [line]
  {
    AcceptedLinesStep(cs, i, t);
  }

  /**
   * The checks made on one entered quantity, in the order create_stock_adjustment
   * makes them: no quantity, more than the cart holds (returns) or than is
   * available (other types), not positive; otherwise the priced line.
   */
  method CheckLine(c: Candidate, t: AdjustmentType) returns (line: Option<Line>)
    ensures line == LineFor(c, t)
    ensures line.Some? ==> line.value.quantity > 0.0 && line.value.totalPrice == line.value.purchasePrice * line.value.quantity
  {
    if c.qty.Blank? {
      return None;
    }
    if c.qty.Unreadable? {
      return None;
    }
    var q := c.qty.value;
    if t == Return {
      if q > c.item.inCart as real {
        return None;
      }
    } else {
      if q > c.item.available as real {
        return None;
      }
    }
    if q <= 0.0 {
      return None;
    }
    var price := c.item.purchasePrice * q;
    line := Some(Line(c.item.productId, c.item.variantId, c.item.name, q, c.item.unit,
                      c.item.purchasePrice, price));
    assert LineFor(c, t).value == line.value;
  }

  /** Builds the lines and the running total, as the quantity loop of create_stock_adjustment does. */
  method BuildLines(cs: seq<Candidate>, t: AdjustmentType) returns (lines: seq<Line>, total: real)
    ensures lines == AcceptedLines(cs, t)
    ensures total == LinesTotal(lines)
  {
    lines, total := [], 0.0;
    for i := 0 to |cs|
      invariant lines == AcceptedLines(cs[..i], t)
      invariant total == LinesTotal(lines)
    {
      var line := CheckLine(cs[i], t);
      if line.None? {
        SkipStep(cs, i, t);
        continue;
      }
      total := total + line.value.totalPrice;
      TakeStep(cs, i, t, lines, line.value);
      LinesTotalStep(lines, line.value);
      lines := lines + [line.value];
    }
    assert cs[..|cs|] == cs;
  }

  // ---------------------------------------------------------------- the transaction

  /** The product table after applying the lines in order, each one re-reading the record. */
  function ApplyLines(ps: seq<Product>, ls: seq<Line>, t: AdjustmentType): (r: seq<Product>)
    ensures |r| == |ps|
  {
    if ls == [] then ps
    else
      var last := ls[|ls| - 1];
      AfterAdjustment(ApplyLines(ps, ls[..|ls| - 1], t), last.productId, last.variantId, t, last.quantity)
  }

  datatype AdjustmentKey = AdjustmentKey(adjustmentId: string, date: string)

  /** The adjustment record as written once; the creation timestamp is not modelled. */
  datatype StockAdjustment = StockAdjustment(
    adjustmentId: string, date: string, adjustmentType: AdjustmentType,
    lines: seq<Line>, totalPrice: real, notes: string)

  datatype AdjustmentError =
    | NoProducts        // the product table is empty
    | NoSelection       // no item number entered
    | InvalidSelection  // no entered number names an item
    | EmptyAdjustment   // every line was skipped or rejected
    | Abandoned         // an exception left the function before anything was written

  /** What create_stock_adjustment decides from the snapshot: the record to write, or why none. */
  function PlanAdjustment(ps: seq<Product>, adjustmentId: string, date: string, t: AdjustmentType,
                          notes: string, rs: seq<Request>): (r: Result<StockAdjustment, AdjustmentError>)
    ensures r == Err(NoProducts) <==> ps == []
    ensures r == Err(NoSelection) <==> ps != [] && rs == []
    ensures r == Err(InvalidSelection) <==>
              ps != [] && rs != [] && forall k :: 0 <= k < |rs| ==> !(0 <= rs[k].pick < |ItemsForAdjustment(ps)|)
    ensures r != Err(Abandoned)
    ensures r.Ok? ==> r.value.lines != [] && r.value.totalPrice == LinesTotal(r.value.lines)
                      && forall k :: 0 <= k < |r.value.lines| ==> r.value.lines[k].quantity > 0.0
  {
    var items := ItemsForAdjustment(ps);
    var cs := SelectCandidates(items, rs);
    var lines := AcceptedLines(cs, t);
    if items == [] then Err(NoProducts)
    else if rs == [] then Err(NoSelection)
    else if cs == [] then Err(InvalidSelection)
    else if lines == [] then Err(EmptyAdjustment)
    else Ok(StockAdjustment(adjustmentId, date, t, lines, LinesTotal(lines), notes))
  }

  /**
   * create_stock_adjustment as written: Decimal() of a quantity that is not a
   * number raises InvalidOperation, which the per-line `except ValueError` does
   * not catch, so the whole adjustment is abandoned before anything is written.
   */
  function PlanAdjustmentAsWritten(ps: seq<Product>, adjustmentId: string, date: string, t: AdjustmentType,
                                   notes: string, rs: seq<Request>): (r: Result<StockAdjustment, AdjustmentError>)
    ensures r == Err(Abandoned) <==> ps != [] && SomeUnreadableEntry(ItemsForAdjustment(ps), rs)
    ensures r != Err(Abandoned) ==> r == PlanAdjustment(ps, adjustmentId, date, t, notes, rs)
  {
    var items := ItemsForAdjustment(ps);
    var cs := SelectCandidates(items, rs);
    SelectedUnreadable(items, rs);
    if items == [] then Err(NoProducts)
    else if rs == [] then Err(NoSelection)
    else if cs == [] then Err(InvalidSelection)
    else if SomeUnreadable(cs) then Err(Abandoned)
    else PlanAdjustment(ps, adjustmentId, date, t, notes, rs)
  }

  /**
   * One mistyped quantity next to a good one: as written nothing is recorded;
   * the corrected plan skips the mistyped line and records the other.
   */
  lemma MistypedQuantityAbandonsAdjustment(p: Product)
    requires p.stockMode == ParentMode && p.stock == 10 && p.inCart == 0
    ensures var rs := [Request(0, Unreadable), Request(0, Amount(3.0))];
            && PlanAdjustmentAsWritten([p], "ADJ-0001", "2024-01-01", Damage, "", rs) == Err(Abandoned)
            && PlanAdjustment([p], "ADJ-0001", "2024-01-01", Damage, "", rs).Ok?
            && |PlanAdjustment([p], "ADJ-0001", "2024-01-01", Damage, "", rs).value.lines| == 1
  {
    var rs := [Request(0, Unreadable), Request(0, Amount(3.0))];
    var bad, good := Candidate(ParentItem(p), Unreadable), Candidate(ParentItem(p), Amount(3.0));
    SnapshotItems(p);
    TwoRequestsTwoCandidates(ParentItem(p), Unreadable, Amount(3.0));
    AcceptedLinesAppend([bad], [good], Damage);
    assert [bad] + [good] == [bad, good];
    OneCandidateLines(bad, Damage);
    OneCandidateLines(good, Damage);
    assert SelectCandidates(ItemsForAdjustment([p]), rs)[0].qty.Unreadable?;
  }

  lemma SnapshotItems(p: Product)
    requires p.stockMode == ParentMode
    ensures ItemsForAdjustment([p]) == [ParentItem(p)]
  {
    var ps := [p];
    assert ps[..0] == [];
    assert ItemsForAdjustment(ps) == ItemsForAdjustment([]) + ProductItems(p);
  }

  lemma TwoRequestsTwoCandidates(item: StockItem, e1: Entry, e2: Entry)
    ensures SelectCandidates([item], [Request(0, e1), Request(0, e2)]) == [Candidate(item, e1), Candidate(item, e2)]
  {
    var rs := [Request(0, e1), Request(0, e2)];
    assert rs[..1] == [rs[0]] && [rs[0]][..0] == [];
  }

  /** A single non-return line asking for more than is available aborts the whole adjustment. */
  lemma OverdrawnSingleLineAborts(ps: seq<Product>, id: string, date: string, t: AdjustmentType,
                                  notes: string, pick: int, q: real)
    requires t != Return
    requires 0 <= pick < |ItemsForAdjustment(ps)|
    requires q > ItemsForAdjustment(ps)[pick].available as real
    ensures PlanAdjustment(ps, id, date, t, notes, [Request(pick, Amount(q))]) == Err(EmptyAdjustment)
  {
    var items := ItemsForAdjustment(ps);
    var c := Candidate(items[pick], Amount(q));
    OneRequestOneCandidate(items, pick, Amount(q));
    assert LineFor(c, t).None?;
    OneCandidateLines(c, t);
  }

  lemma OneRequestOneCandidate(items: seq<StockItem>, pick: int, qty: Entry)
    requires 0 <= pick < |items|
    ensures SelectCandidates(items, [Request(pick, qty)]) == [Candidate(items[pick], qty)]
  {
    var rs := [Request(pick, qty)];
    assert rs[..0] == [];
  }

  lemma OneCandidateLines(c: Candidate, t: AdjustmentType)
    ensures AcceptedLines([c], t) == if LineFor(c, t).None? then [] else [LineFor(c, t).value]
  {
    assert [c][..0] == [];
  }

  /** The two lines of the example below: 10 units at purchase price 2. */
  function TenUnitLine(p: Product): Line {
    Line(p.productId, None, p.name, 10.0, p.unit, p.purchasePrice, p.purchasePrice * 10.0)
  }

  lemma SnapshotCandidates(p: Product, rs: seq<Request>)
    requires p.stockMode == ParentMode && rs == [Request(0, Amount(10.0)), Request(0, Amount(10.0))]
    ensures SelectCandidates(ItemsForAdjustment([p]), rs) == [Candidate(ParentItem(p), Amount(10.0)), Candidate(ParentItem(p), Amount(10.0))]
  {
    SnapshotItems(p);
    TwoRequestsTwoCandidates(ParentItem(p), Amount(10.0), Amount(10.0));
  }

  lemma SnapshotLines(p: Product, c: Candidate)
    requires p.stock == 10 && p.inCart == 0 && p.purchasePrice == 2.0
    requires c == Candidate(ParentItem(p), Amount(10.0))
    ensures AcceptedLines([c, c], Damage) == [TenUnitLine(p), TenUnitLine(p)]
    ensures LinesTotal([TenUnitLine(p), TenUnitLine(p)]) == 40.0
  {
    var line := TenUnitLine(p);
    LineForCases(c, Damage);
    assert LineFor(c, Damage) == Some(line);
    assert [c][..0] == [];
    RepeatedCandidateJudgedAlike(c, Damage);
    LinesTotalStep([line], line);
    LinesTotalStep([], line);
    assert [] + [line] == [line];
  }

  lemma SnapshotApply(p: Product)
    requires p.stockMode == ParentMode && p.stock == 10 && p.inCart == 0 && p.purchasePrice == 2.0
    ensures ApplyLines([p], [TenUnitLine(p), TenUnitLine(p)], Damage)[0].stock == -10
  {
    var ps, line := [p], TenUnitLine(p);
    var once := AfterAdjustment(ps, p.productId, None, Damage, 10.0);
    assert once == [AdjustParent(p, Damage, 10.0)];
    assert once[0].stock == 0;
    assert ApplyLines(ps, [line], Damage) == once by {
      assert [line][..0] == [];
    }
    assert [line, line][..1] == [line];
    assert ApplyLines(ps, [line, line], Damage) == AfterAdjustment(once, p.productId, None, Damage, 10.0);
    assert AfterAdjustment(once, p.productId, None, Damage, 10.0)[0] == AdjustParent(once[0], Damage, 10.0);
  }

  /**
   * Because every line is checked against the same snapshot, choosing one item
   * twice lets an adjustment take out twice what is available: 10 in stock,
   * two damage lines of 10 each, both accepted, stock ends at -10.
   */
  lemma SnapshotValidationOverdraws(p: Product)
    requires p.stockMode == ParentMode && p.stock == 10 && p.inCart == 0 && p.purchasePrice == 2.0
    ensures var plan := PlanAdjustment([p], "ADJ-0001", "2024-01-01", Damage, "", [Request(0, Amount(10.0)), Request(0, Amount(10.0))]);
            && plan.Ok? && |plan.value.lines| == 2 && plan.value.totalPrice == 40.0
            && ApplyLines([p], plan.value.lines, Damage)[0].stock == -10
  {
    var rs := [Request(0, Amount(10.0)), Request(0, Amount(10.0))];
    var c := Candidate(ParentItem(p), Amount(10.0));
    SnapshotCandidates(p, rs);
    SnapshotLines(p, c);
    SnapshotApply(p);
    assert ItemsForAdjustment([p]) != [];
  }

  class Store {
    var products: seq<Product>
    var adjustments: map<AdjustmentKey, StockAdjustment>

    ghost predicate Valid()
      reads this
    {
      UniqueIds(products)
    }

    constructor (products: seq<Product>)
      requires UniqueIds(products)
      ensures Valid() && this.products == products && adjustments == map[]
    {
      this.products := products;
      adjustments := map[];
    }

    /**
     * Reads the product, applies the adjustment to the parent or to the first
     * variant with the id, and writes the record back; writes nothing when the
     * product or the variant is missing.
     */
    method UpdateProductStockForAdjustment(productId: string, variantId: Option<string>, q: real,
                                           t: AdjustmentType)
      requires Valid()
      modifies this
      ensures Valid() && adjustments == old(adjustments)
      ensures products == AfterAdjustment(old(products), productId, variantId, t, q)
    {
      var i := 0;
      while i < |products| && products[i].productId != productId
        invariant 0 <= i <= |products|
        invariant forall j :: 0 <= j < i ==> products[j].productId != productId
      {
        i := i + 1;
      }
      if i == |products| {
        return;
      }
      var product := products[i];
      if TargetsVariant(variantId) {
        var adjusted := AdjustFirstVariant(product, variantId.value, t, q);
        AfterAdjustmentAt(products, productId, variantId, t, q, i);
        if adjusted.None? {
          return;
        }
        AfterAdjustmentKeepsIds(products, productId, variantId, t, q);
        products := products[i := adjusted.value];
      } else {
        AfterAdjustmentAt(products, productId, variantId, t, q, i);
        AfterAdjustmentKeepsIds(products, productId, variantId, t, q);
        products := products[i := AdjustParent(product, t, q)];
      }
    }

    /** Applies the accepted lines one after the other, each through the stock update. */
    method ApplyAdjustmentLines(lines: seq<Line>, t: AdjustmentType)
      requires Valid()
      modifies this
      ensures Valid() && adjustments == old(adjustments)
      ensures products == ApplyLines(old(products), lines, t)
    {
      for k := 0 to |lines|
        invariant Valid() && adjustments == old(adjustments)
        invariant products == ApplyLines(old(products), lines[..k], t)
      {
        assert lines[..k + 1][..k] == lines[..k];
        UpdateProductStockForAdjustment(lines[k].productId, lines[k].variantId, lines[k].quantity, t);
      }
      assert lines[..|lines|] == lines;
    }

    /**
     * create_stock_adjustment with the per-line quantity check corrected: validate
     * every requested line against one snapshot, skipping a quantity that is not a
     * number, write the adjustment once if a line survives, then apply the lines in
     * order. It agrees with the program as written except where that one abandons
     * the whole adjustment.
     */
    method CreateStockAdjustment(adjustmentId: string, date: string, t: AdjustmentType, notes: string,
                                 rs: seq<Request>)
      returns (r: Result<StockAdjustment, AdjustmentError>)
      requires Valid()
      modifies this
      ensures Valid()
      ensures r == PlanAdjustment(old(products), adjustmentId, date, t, notes, rs)
      ensures PlanAdjustmentAsWritten(old(products), adjustmentId, date, t, notes, rs) != Err(Abandoned) ==>
                r == PlanAdjustmentAsWritten(old(products), adjustmentId, date, t, notes, rs)
      ensures r.Err? ==> products == old(products) && adjustments == old(adjustments)
      ensures r.Ok? ==> adjustments == old(adjustments)[AdjustmentKey(adjustmentId, date) := r.value]
                        && products == ApplyLines(old(products), r.value.lines, t)
    {
      ghost var plan := PlanAdjustment(products, adjustmentId, date, t, notes, rs);
      var items := ItemsForAdjustment(products);
      if items == [] {
        return Err(NoProducts);
      }
      if rs == [] {
        return Err(NoSelection);
      }
      var cs := SelectCandidates(items, rs);
      if cs == [] {
        return Err(InvalidSelection);
      }
      var lines, total := BuildLines(cs, t);
      if lines == [] {
        return Err(EmptyAdjustment);
      }
      var adjustment := StockAdjustment(adjustmentId, date, t, lines, total, notes);
      assert plan == Ok(adjustment);
      adjustments := adjustments[AdjustmentKey(adjustmentId, date) := adjustment];
      ApplyAdjustmentLines(lines, t);
      r := Ok(adjustment);
      assert r == plan;
    }
  }
}
