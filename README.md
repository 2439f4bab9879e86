# Catalog, stock-adjustment and delivery rules of the products CLI

This project is a Dafny model of the decision logic inside the `ProductsCLI`
class of `products_cli.py`. That program is an admin console over DynamoDB tables
for a grocery catalog. The model keeps what the console decides and leaves out
how it talks to the tables. The store is a value: product records with their
variants, lists of existing ids, pincode records with their charge tiers, and a
customer's address list. Each decision is a function or a method over that value.

The modules follow the program's areas:

- `StockStatus` derives a product's status (`calculate_product_status`).
- `Units` covers the two unit tables of `convert_variant_qty_to_parent_unit` and
  the pairwise `convert_base_to_unit`. `Text` holds the Python string behaviour
  these rely on: `strip()`, `lower()`, `int()`, `split('-')` and `{n:04d}`.
- `Pricing` computes the suggested variant prices and their two-decimal default.
- `Ledger` holds the mutation table of a stock adjustment, the line guard, and the
  parent-level recomputation of status and storefront (B2C) visibility.
- `Inventory` has the snapshot of adjustable items (`get_products_for_adjustment`)
  and the line validation of `create_stock_adjustment`. Its `Store` class updates
  the product table in place (`update_product_stock_for_adjustment`) and records
  an adjustment.
- `IdAllocation` covers the `generate_*_id` family: the maximum matched number
  plus one, zero-padded to four digits.
- `Delivery` resolves the delivery charge of an order. It also edits a pincode's
  tier list and collects a pincode's delivery slots without duplicates.
- `Orders` covers order totals, the cancel guard, and default-address upkeep on
  a `Customer` class.

Decimal amounts are exact `real`s. Stock, cart and threshold fields are `int`s
because the program writes them back through `int()`. That truncation toward
zero is modelled explicitly (`Ledger.Trunc`).

## Model

| member | source | states |
|---|---|---|
| StockStatus.CalculateStatus | products_cli.py:267-274 | zero stock is out-of-stock whatever the threshold; low-stock exactly when stock is non-zero, the threshold positive and stock at most the threshold; in-stock otherwise |
| StockStatus.ZeroThresholdNeverLow | products_cli.py:267-274 | a threshold of 0 never yields low-stock, and any non-zero stock is then in-stock |
| Units.ConvertVariantQtyToParentUnit | products_cli.py:276-320 | a missing, unparsable or non-positive quantity converts to 0, and only those do; the result is never negative |
| Units.ConvertWithinTable | products_cli.py:280-316 | within one table the quantity is multiplied by 1000, divided by 1000 or left as is, by the two factors |
| Units.ConvertThroughIntermediate | products_cli.py:276-320 | converting through another unit of the same table gives the same amount as converting directly |
| Units.ConvertUnrelatedIsIdentity | products_cli.py:317-320 | units that share no table, or are unknown, leave a positive quantity unchanged |
| Units.ConvertToSelf | products_cli.py:276-320 | converting a unit to itself is the identity on positive quantities |
| Units.ConvertRoundTrip | products_cli.py:276-320 | converting to another unit and back returns the positive quantity exactly, for any two names |
| Units.ConvertExamples | products_cli.py:280-316 | 1000 g is 1 kg, 1 kg is 1000 g, 250 ml is 0.25 l, and kg to ml falls back to 1:1 |
| Units.ConvertIgnoresCaseAndBlanks | products_cli.py:301-302 | units are compared after strip() and lower(): " Kg" to "GRAMS" multiplies by 1000 |
| Units.SymbolClassifies | products_cli.py:301-316 | each of kg, g, l and ml is matched after strip() and lower() to its own table with its own factor |
| Units.ConvertBaseToUnit | products_cli.py:2221-2238 | definition: lower() both names, then x1000 or /1000 for the four kg/g and l/ml pairs, 1:1 otherwise; its meaning is stated by the three lemmas below |
| Units.ConvertBaseToUnitRoundTrip | products_cli.py:2221-2238 | the pairwise conversion undoes itself for every quantity and every pair of names |
| Units.BaseToUnitOfSymbols | products_cli.py:2221-2238 | between the symbols kg, g, l and ml the pairwise conversion is x1000 towards the milli unit, /1000 back, and 1:1 otherwise |
| Units.ConvertBaseToUnitAgrees | products_cli.py:2221-2238 | on the four symbols the pairwise conversion agrees with the table conversion for positive quantities |
| Units.ConvertBaseToUnitIgnoresAliases | products_cli.py:2221-2238 | unlike the table conversion, the pairwise one leaves "kilogram" to "g" at 1:1 |
| Pricing.SuggestVariantPrices | products_cli.py:550-555 | definition: each parent price times the variant quantity converted to the parent unit (kg when none); its properties are the four lemmas below |
| Pricing.NoQuantityNoPrice | products_cli.py:550-555 | a missing, unparsable or non-positive variant quantity suggests prices of 0 |
| Pricing.SuggestionUnitInvariant | products_cli.py:1381-1386 | the same amount written in another unit of the parent's table suggests the same prices |
| Pricing.SameRatioSameSuggestion | products_cli.py:550-555 | two variants that come to the same amount of the parent unit get the same suggested prices |
| Pricing.SuggestionExample | products_cli.py:550-555 | parent prices 100 and 150 per kg and a 250 g variant suggest 25 and 37.50 |
| Pricing.RoundHalfEven | products_cli.py:559-562 | the nearest integer, within one half, with ties going to the even integer |
| Pricing.Cents | products_cli.py:559-562 | the `.2f` default is within half a cent of the suggestion |
| Pricing.DefaultVariantPrices | products_cli.py:1387-1393 | each stored default is within half a cent of the suggested price |
| Pricing.CentsOfCents | products_cli.py:559-562 | an amount already in whole cents is stored unchanged |
| Pricing.CentsTiesToEven | products_cli.py:559-562 | half a cent rounds to the even cent: 0.125 becomes 0.12 and 0.375 becomes 0.38 |
| Ledger.Trunc | products_cli.py:2687-2688 | int() of a number truncates toward zero: within one unit, on the side of zero |
| Ledger.Adjusted | products_cli.py:2684-2725 | definition: the mutation table of both branches, with each new level written through int(); its meaning is stated by AdjustedWhole and the lemmas below |
| Ledger.Admissible | products_cli.py:2551-2570 | definition: the line guard (a return at most the cart, any other type at most the available stock, and a positive quantity); see RemovalLowersStock and AdmissibleKeepsLevelsNonNegative |
| Ledger.AdjustedWhole | products_cli.py:2713-2725 | for a whole quantity: cart_stock moves it from stock to cart; return moves it back, with the cart floored at 0; the three removals lower stock only |
| Ledger.CartThenReturnRestores | products_cli.py:2684-2693 | moving a whole quantity into the cart and returning it restores stock and cart |
| Ledger.RemovalLowersStock | products_cli.py:2694-2697 | a validated removal leaves the cart alone and lowers the stock, never below the cart |
| Ledger.AdmissibleKeepsLevelsNonNegative | products_cli.py:2551-2570 | a quantity that passes the line guard keeps stock and cart non-negative |
| Ledger.FractionalCartLosesStock | products_cli.py:2716-2717 | truncation on write: half a unit into the cart takes a whole unit off the stock and puts nothing in the cart |
| Ledger.AdjustParent | products_cli.py:2708-2738 | the parent's levels follow the mutation table; status is recomputed from the new stock and the threshold; onB2C holds exactly when the untruncated new stock exceeds the new cart; nothing else changes |
| Ledger.FirstVariantIndex | products_cli.py:2678-2680 | None exactly when no variant has the id; otherwise the first index that has it |
| Ledger.AdjustVariantOf | products_cli.py:2673-2706 | no product (nothing written) exactly when no variant has the id; otherwise only the first matching variant is adjusted |
| Ledger.VariantAdjustmentIsLocal | products_cli.py:2673-2706 | a variant adjustment leaves the parent's stock, cart, status and visibility alone, and every variant but the first match |
| Ledger.AdjustProduct | products_cli.py:2673-2738 | definition: a non-empty variant id takes the variant branch (AdjustVariantOf), anything else the parent branch (AdjustParent) |
| Ledger.ParentVisibilityWhole | products_cli.py:2731-2738 | for a whole quantity the parent is visible exactly when its new stock exceeds its new cart |
| Ledger.CartScenario | products_cli.py:2713-2738 | 95 of 100 units into the cart with threshold 10 gives stock 5, cart 95, low-stock and hidden |
| Inventory.IndexOfProduct | products_cli.py:2666-2671 | None exactly when no record has the id; otherwise the first record with it |
| Inventory.AfterAdjustment | products_cli.py:2650-2744 | the table keeps its length and every record keeps its id |
| Inventory.AfterAdjustmentKeepsIds | products_cli.py:2650-2744 | an adjustment keeps product ids unique |
| Inventory.AfterAdjustmentAt | products_cli.py:2650-2744 | the first record with the id is replaced by its adjusted product, or the table is left as is when the variant branch finds no variant |
| Inventory.AfterAdjustmentIsLocal | products_cli.py:2650-2744 | every record with another id is unchanged |
| Inventory.AdjustFirstVariant | products_cli.py:2673-2703 | the search loop with `break` gives the product of the variant branch, or none when no variant has the id |
| Inventory.ItemsForAdjustment | products_cli.py:2345-2436 | every item's available quantity is its stock less its cart; there are at least as many items as products |
| Inventory.ProductItems | products_cli.py:2371-2430 | a product lists its parent item first, then, in variant mode only, one item per variant in variant order |
| Inventory.ItemsForAdjustmentAppend | products_cli.py:2371-2430 | the snapshot is built product by product in table order: the items of a concatenated table are the concatenated items |
| Inventory.ItemsOfOneProduct | products_cli.py:2371-2430 | a one-product table lists exactly that product's items |
| Inventory.SelectCandidates | products_cli.py:2519-2528 | every candidate is an item of the list, at most one per entry; the list is empty exactly when no entered number is in range |
| Inventory.SelectCandidatesAllInRange | products_cli.py:2519-2528 | when every entered number is in range, each entry gives its item with its quantity, in order |
| Inventory.SelectCandidatesAppend | products_cli.py:2519-2528 | entered numbers are resolved one by one: the candidates of concatenated entries are the concatenated candidates |
| Inventory.SelectedUnreadable | products_cli.py:2528-2561 | a selected line has a quantity that is not a number exactly when some in-range entry has one |
| Inventory.SnapshotItems | products_cli.py:2371-2386 | a parent-mode product is listed once, as its parent item |
| Inventory.LineFor | products_cli.py:2541-2583 | definition of the corrected per-line check; its meaning is stated by LineForCases and LineForPriced |
| Inventory.LineForCases | products_cli.py:2541-2583 | a line is skipped exactly when its quantity is missing or fails the guard; an accepted line copies the item and prices the quantity |
| Inventory.LineForPriced | products_cli.py:2572-2583 | an accepted line's total is its purchase price times its quantity |
| Inventory.AcceptedLinesPriced | products_cli.py:2572-2583 | every accepted line's total is its purchase price times its quantity |
| Inventory.AcceptedLinesAppend | products_cli.py:2536-2589 | lines are accepted one by one: the lines of a concatenation are the concatenated lines |
| Inventory.LinesTotalAppend | products_cli.py:2573 | the running total of concatenated lines is the sum of the two totals |
| Inventory.LinesTotalNonNegative | products_cli.py:2572-2573 | with non-negative purchase prices the adjustment total is non-negative |
| Inventory.RepeatedCandidateJudgedAlike | products_cli.py:2489-2570 | the same item selected twice is validated twice against the same snapshot |
| Inventory.CheckLine | products_cli.py:2541-2583 | the checks on one entered quantity give exactly the line, or its absence, that the line function defines, and an accepted line has a positive quantity and total = price x quantity |
| Inventory.BuildLines | products_cli.py:2533-2589 | the loop collects exactly the accepted lines, in order, and their total |
| Inventory.PlanAdjustment | products_cli.py:2489-2593 | the corrected plan: no products, no entry, and no entry in range are each reported exactly in their case; it never abandons; a recorded adjustment has at least one line, positive quantities and total = sum of line totals |
| Inventory.PlanAdjustmentAsWritten | products_cli.py:2547-2589 | as written, the adjustment is abandoned exactly when there are products and some in-range entry has a quantity that is not a number; in every other case the result is the corrected plan |
| Inventory.MistypedQuantityAbandonsAdjustment | products_cli.py:2547-2589 | a quantity that is not a number abandons the whole adjustment as written; the corrected plan skips that line and keeps the other |
| Inventory.OverdrawnSingleLineAborts | products_cli.py:2561-2593 | a single non-return line asking for more than is available leaves nothing to record |
| Inventory.SnapshotValidationOverdraws | products_cli.py:2489-2631 | two damage lines of 10 against a stock of 10 are both accepted (total 40), and applying them leaves stock at -10 |
| Inventory.ApplyLines | products_cli.py:2624-2631 | the table keeps its length; each line is applied to the table the previous lines left |
| Inventory.Store.UpdateProductStockForAdjustment | products_cli.py:2650-2744 | the table becomes the adjusted table; an unknown product or variant writes nothing; ids stay unique |
| Inventory.Store.ApplyAdjustmentLines | products_cli.py:2624-2631 | the lines are applied in order, each re-reading the record |
| Inventory.Store.CreateStockAdjustment | products_cli.py:2438-2631 | runs the corrected flow (a quantity that is not a number skips its line): the result is the corrected plan from the snapshot and equals the as-written result whenever that one does not abandon; on error nothing changes; otherwise the record is written once and the lines applied in order |
| IdAllocation.MatchNumber | products_cli.py:2249-2251 | definition of reading an id back: exactly four digits (PRD, ADJ), four or more (the corrected scheme), or int() of the k-th split('-') field (PIN, DT, CUST, ORD); see the ReadBack lemmas |
| IdAllocation.Numbers | products_cli.py:2247-2253 | one match result per existing id, in order |
| IdAllocation.MaxSome | products_cli.py:3158-3161 | the result bounds every matched number, and is 0 or one of them |
| IdAllocation.NextSequentialId | products_cli.py:2243-2259 | the scan loop returns the prefix with the maximum matched number plus one, zero-padded to four digits |
| IdAllocation.NextIdFresh | products_cli.py:2258-2259 | when the scheme reads its own output back, the next id is not among the existing ids |
| IdAllocation.FormatIdParts | products_cli.py:2259 | the id is the prefix followed by the four-digit padding, with no trailing newline |
| IdAllocation.ReadBackExactFour | products_cli.py:2249-2251 | `^PRD-(\d{4})$` reads back every number below 10000 |
| IdAllocation.ExactFourBelow10000 | products_cli.py:2249-2251 | every number the four-digit pattern accepts is below 10000 |
| IdAllocation.ReadBackSplit | products_cli.py:3136-3139 | `int(id.split('-')[1])` reads back every generated number after a dash-free word |
| IdAllocation.ReadBackTwoWords | products_cli.py:5161-5163 | `int(id.split('-')[2])` reads back every generated number after two dash-free words |
| IdAllocation.ReadBackAtLeastFour | products_cli.py:2249-2251 | a pattern of four or more digits reads back every generated number |
| IdAllocation.NextIdHasPrefix | products_cli.py:2259 | every generated id starts with its prefix |
| IdAllocation.NextDashFieldId | products_cli.py:3126-3163 | the split('-') scan returns the next id after the maximum, and it is fresh |
| IdAllocation.NextTwoWordId | products_cli.py:5131-5169 | the two-word split('-') scan returns the next id, with the two-word prefix, and it is fresh |
| IdAllocation.NextFourDigitId | products_cli.py:2243-2259 | the next id is fresh while the largest matched number is below 9999 |
| IdAllocation.GenerateProductId | products_cli.py:2240-2262 | the next PRD id, fresh while the largest matched number is below 9999 |
| IdAllocation.GenerateAdjustmentId | products_cli.py:2268-2290 | the next ADJ id, fresh while the largest matched number is below 9999 |
| IdAllocation.GenerateProductIdCorrected | products_cli.py:2240-2262 | reading four or more digits, the next PRD id is always fresh |
| IdAllocation.GeneratePincodeId | products_cli.py:3126-3166 | the next PIN id, always fresh |
| IdAllocation.GenerateDeliveryTypeId | products_cli.py:4016-4051 | the next DT id, always fresh |
| IdAllocation.GenerateCustomerId | products_cli.py:5097-5129 | the next CUST id, always fresh |
| IdAllocation.GenerateOrderId | products_cli.py:5131-5172 | the next ORD-date id, counted within the date, starting with the date prefix and always fresh |
| IdAllocation.FirstProductId | products_cli.py:2243-2259 | no existing ids give PRD-0001 |
| IdAllocation.ProductIdAfterThree | products_cli.py:2243-2259 | PRD-0001, PRD-0003 and PRD-0002 give PRD-0004 |
| IdAllocation.MaxOfThreeIds | products_cli.py:2247-2253 | the maximum over three four-digit ids is the largest of their numbers |
| IdAllocation.FiveDigitsNotMatched | products_cli.py:2249 | a five-digit id is not matched by the four-digit pattern |
| IdAllocation.ProductIdRepeatsAfter9999 | products_cli.py:2249-2259 | after PRD-9999 the next id is PRD-10000, and it is PRD-10000 again once that exists |
| IdAllocation.MaxStaysAt9999 | products_cli.py:2249-2253 | PRD-10000 does not raise the matched maximum above 9999 |
| IdAllocation.VariantId | products_cli.py:2264-2266 | definition: the product id, "-v" and the index padded to two digits; see VariantIdInjective |
| IdAllocation.VariantIdInjective | products_cli.py:2264-2266 | distinct variant indexes give distinct variant ids |
| Delivery.BestCharge | products_cli.py:5211-5221 | the greatest charge of an active tier whose minimum the order reaches, or 0: non-negative, above every qualifying charge, and 0 or attained |
| Delivery.BestChargeUnique | products_cli.py:5211-5221 | any non-negative bound on the qualifying charges that is 0 or attained is the resolved charge |
| Delivery.ApplicableCharge | products_cli.py:5211-5221 | the loop with `continue` computes the resolved charge |
| Delivery.FirstWithNumber | products_cli.py:5195-5204 | None exactly when no pincode has the number; otherwise a record with it |
| Delivery.ChargeForPincode | products_cli.py:5188-5221 | 0 for an unknown pincode; otherwise the resolved charge of its tiers; never negative |
| Delivery.InactiveTierNeverContributes | products_cli.py:5213-5214 | removing an inactive tier does not change the charge |
| Delivery.ChargeGrowsWithOrderValue | products_cli.py:5216 | a larger order never gets a smaller delivery charge |
| Delivery.GreatestChargeWins | products_cli.py:5211-5221 | tiers (500, 40) and (1000, 20) charge 40 on an order of 1200, not 20; 0 on 300; 20 once the first is inactive |
| Delivery.InitialTiers | products_cli.py:3250-3290 | a truthy minimum with a charge at or above it is refused; otherwise there is one active tier exactly when both are truthy |
| Delivery.AddDeliveryCharge | products_cli.py:4831-4885 | unknown pincode or missing value is an error; a found pincode with both values always succeeds, with no minimum check; the tier list is replaced by the one new active tier |
| Delivery.ChargeAfterAdd | products_cli.py:4870-4877 | after an add, the charge is the new charge when the order reaches the minimum and that charge is positive, else 0 |
| Delivery.AddAcceptsChargeAboveMinimum | products_cli.py:3255-3257 | minimum 100 with charge 150 is refused at pincode creation but accepted by an add |
| Delivery.WithoutTier | products_cli.py:5078 | exactly the tiers with another id remain; the list shrinks when one had the id |
| Delivery.WithoutTierAppend | products_cli.py:5078 | the filter keeps order and multiplicity: filtering a concatenation filters each part |
| Delivery.WithoutTierOne | products_cli.py:5078 | a single tier is dropped exactly when it carries the id, and kept otherwise |
| Delivery.DeleteDeliveryCharge | products_cli.py:5045-5084 | an unknown pincode or charge is an error, and a found pincode holding the charge always succeeds; unconfirmed leaves the record; confirmed leaves exactly the filtered tier list, in order, which is shorter and holds every tier with another id |
| Delivery.DedupFirst | products_cli.py:5264-5267 | the result has no duplicates and the same members as the input |
| Delivery.OfferTypeSlots | products_cli.py:5256-5273 | the slot loop keeps the first of each key, skipping inactive slots, with the seen set equal to the kept keys |
| Delivery.AvailableSlots | products_cli.py:5251-5297 | the offers are the de-duplicated keys of the active slots of the selected active types, in order |
| Delivery.Candidates | products_cli.py:5256-5273 | definition: the active-slot keys of each selected active type, in type order; its meaning is stated by CandidateIff |
| Delivery.CandidateIff | products_cli.py:5290-5293 | a key is a candidate exactly when an active slot of a selected active type produces it |
| Delivery.OffersAreTheActiveSlots | products_cli.py:5251-5297 | the offers have no duplicates, and an offer is present exactly when an active slot of a selected active type produces it |
| Delivery.OfferOfInjective | products_cli.py:5268-5273 | distinct keys give distinct offers |
| Delivery.SlotKeyIndex | products_cli.py:5264-5273 | every collected key comes from an active slot |
| Delivery.SlotKeyMember | products_cli.py:5264-5273 | every active slot's key is collected |
| Orders.NewItem | products_cli.py:6062-6089 | an item exists exactly for a positive quantity, carrying the product's id, name and price, with subtotal price x quantity |
| Orders.OrderSubtotal | products_cli.py:6147 | non-negative item subtotals give a non-negative order subtotal |
| Orders.OrderSubtotalAppend | products_cli.py:6147 | the subtotal of concatenated items is the sum of the subtotals |
| Orders.SubtotalOfNewItemsNonNegative | products_cli.py:6079-6147 | items at non-negative prices and positive quantities have a non-negative subtotal |
| Orders.TotalsAsWritten | products_cli.py:6149-6161 | as written, an unreadable discount abandons the order, and only that does; otherwise the corrected totals |
| Orders.OrderTotals | products_cli.py:6147-6161 | grand total plus discount equals subtotal plus shipping; a missing discount counts as 0 |
| Orders.UnreadableDiscountAbandonsOrder | products_cli.py:6149-6154 | an unreadable discount abandons the order as written; the corrected totals charge subtotal plus shipping |
| Orders.PriceOrder | products_cli.py:6147-6161 | the totals use the pincode's resolved charge, 0 for an unknown pincode; shipping is never negative |
| Orders.MoreItemsNeverLowerShipping | products_cli.py:6147-6158 | adding an item never lowers the delivery charge |
| Orders.CancelOrder | products_cli.py:6502-6544 | missing, cancelled or delivered orders are refused, each with its own error; otherwise only the status changes, to Cancelled when confirmed |
| Orders.CancelIsOneWay | products_cli.py:6518-6524 | a delivered order can never be cancelled, and a cancelled one cannot be cancelled again |
| Orders.ClearDefaults | products_cli.py:5776-5778 | every address loses its default mark and nothing else |
| Orders.DefaultCount | products_cli.py:5776-5781 | the number of default addresses is at most the number of addresses |
| Orders.NoDefaultCountsZero | products_cli.py:5776-5778 | a list with no default mark counts zero defaults |
| Orders.OneDefaultCountsOne | products_cli.py:5776-5781 | a list whose only default is one index counts one default |
| Orders.WithDefault | products_cli.py:5776-5781 | only the chosen address is the default, and nothing else changes |
| Orders.WithNewAddress | products_cli.py:5690-5697 | the new address is appended with the chosen mark; the others lose theirs only when it is the default |
| Orders.WithDefaultHasOneDefault | products_cli.py:5776-5781 | after choosing, exactly one address is the default, the chosen one |
| Orders.NewAddressKeepsOneDefault | products_cli.py:5690-5697 | adding keeps at most one default, and exactly one when the new address is the default |
| Orders.Customer.SetDefaultAddress | products_cli.py:5746-5786 | no addresses and an out-of-range choice are errors that change nothing; a valid choice always succeeds, and then only the chosen address is the default |
| Orders.Customer.AddCustomerAddress | products_cli.py:5690-5699 | the address list becomes the list with the new address added |
| Text.ZeroPad | products_cli.py:2259 | `{n:04d}` is all digits with value n, at least the width long, and exactly the width when n fits |
| Text.ZeroPadInjective | products_cli.py:2259 | two paddings to the same width are equal only for equal numbers |
| Text.PyIntOfPadded | products_cli.py:2251 | int() reads back what the zero-padded format writes |
| Text.StripUnpadded | products_cli.py:301-302 | strip() leaves a string that neither starts nor ends with whitespace unchanged |
| Text.Lower | products_cli.py:301-302 | lower() keeps the length and maps each character on its own |
| Text.LeadingZerosDoNotCount | products_cli.py:2251 | leading zeros do not change the value int() reads |
| Text.AfterDashSkipsDashFree | products_cli.py:3138 | split('-') steps over a dash-free word to the text after it |

## Left out

- DynamoDB access is not modelled: scans, pagination, `get_item`, `put_item` and table creation. Tables are values passed in and returned.
- `get_delivery_charge_for_pincode` reads only the first page of its pincode scan. The model looks through a whole list, which is the same when the match is on the first page.
- Menus, prompts and console output are left out, and so is the parsing of typed text. Item numbers arrive already parsed, and a quantity or price arrives as a number or as "not a number".
- The uuid and timestamp fallback ids of every generator are left out, and so are `datetime` stamps. The date of an order id is a parameter.
- Decimal arithmetic is exact in the model. The program's Decimal context rounds to 28 significant digits in `price * quantity` (products_cli.py:6079), in the order subtotal and grand total (6147, 6161) and in the adjustment line totals; amounts that need more digits than that differ.
- The float round-trip in `convert_variant_qty_to_parent_unit` and `to_float` is not modelled. Quantities are exact reals.
- Decimal NaN and Infinity are left out: the reals have no such values.
- Concurrency is not modelled. ID allocation and read-modify-write updates are assumed not to race.
- Search and listing screens are left out.
- `lower()` is modelled on ASCII letters and the Kelvin sign only. These are the characters whose lower case is ASCII, so unit-table membership is exact. Other characters keep their case in the model.
- `int()` and the regex class `\d` (products_cli.py:2249, 2277) are modelled on ASCII digits only; both also accept other Unicode decimal digits, which the model reads as no number.
- The `unit` argument of `update_product_stock_for_adjustment` is unused by the source and is not a parameter.
- IdAllocation.GenerateProductId: freshness holds only while the largest matched number is below 9999, because the pattern reads exactly four digits (see Findings).
- IdAllocation.GenerateAdjustmentId: the same bound, for the same reason.
- IdAllocation.NextFourDigitId: the same bound, for the same reason.
- Orders.NewItem: an unreadable item quantity in `create_order` raises the same uncaught `InvalidOperation` as the discount and abandons the order. The model takes the quantity as already read.
- Inventory.Store.CreateStockAdjustment: runs the corrected per-line check, so a quantity that is not a number skips its line; the program as written abandons the whole adjustment instead, which Inventory.PlanAdjustmentAsWritten models (see Findings).
- Delivery.AddDeliveryCharge: the source does not check charge < minimum here (only `create_pincode` does), and the model follows the source.
- Delivery.AvailableSlots: the order in which the delivery-type scan returns types is the order of the input list.

## Findings

| source | as written | input that shows it | evidently intended | confidence | as-written member | corrected member |
|---|---|---|---|---|---|---|
| products_cli.py:2249-2259 (also 2277-2287) | `^PRD-(\d{4})$` only counts ids with exactly four digits, yet `{n:04d}` writes five digits from 10000 on | existing ids ["PRD-9999", "PRD-10000"]: the next id is PRD-10000 again, a duplicate | every generated id is counted, so the next one is always fresh | high, not executed | IdAllocation.ProductIdRepeatsAfter9999 | IdAllocation.GenerateProductIdCorrected |
| products_cli.py:6149-6154 | `Decimal(text)` raises `InvalidOperation` on a non-number, which `except ValueError` does not catch, so the order is abandoned | discount text "abc" | a non-numeric discount falls back to 0, as the handler intends | high, not executed | Orders.UnreadableDiscountAbandonsOrder | Orders.OrderTotals |
| products_cli.py:2547-2589 | the same uncaught `InvalidOperation` on a line quantity leaves the whole adjustment unrecorded | lines [item 1 with "abc", item 1 with 3] on a stock of 10 | the mistyped line is skipped ("Invalid quantity") and the other lines are recorded; Inventory.Store.CreateStockAdjustment and Inventory.CheckLine run this corrected flow | high, not executed | Inventory.PlanAdjustmentAsWritten | Inventory.PlanAdjustment |
