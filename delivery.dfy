/**
 * Delivery: the charge a pincode's tier list gives an order, the edits that
 * create, replace and delete tiers, and the delivery slots a pincode offers.
 * Money is exact (Decimal in the store), modelled as `real`.
 */
module Delivery {
  import opened Wrappers

  /** One charge tier of a pincode (an element of its `charges` list). */
  datatype Tier = Tier(id: string, minOrderValue: real, charge: real, isActive: bool)

  datatype Pincode = Pincode(
    pincodeId: string,
    pincodeNumber: string,
    status: string,
    deliveryTypes: seq<string>,
    tiers: seq<Tier>)

  // ---------------------------------------------------------------- charge resolution

  predicate Qualifies(t: Tier, orderValue: real) {
    t.isActive && t.minOrderValue <= orderValue
  }

  /**
   * The charge for an order: the greatest charge among the active tiers whose
   * minimum the order reaches, or 0. It is the greatest CHARGE, not the charge
   * of the tier with the greatest minimum.
   */
  function BestCharge(tiers: seq<Tier>, orderValue: real): (c: real)
    ensures c >= 0.0
    ensures forall k :: 0 <= k < |tiers| && Qualifies(tiers[k], orderValue) ==> tiers[k].charge <= c
    ensures c == 0.0 || exists k :: 0 <= k < |tiers| && Qualifies(tiers[k], orderValue) && tiers[k].charge == c
  {
    if tiers == [] then 0.0
    else
      var init := tiers[..|tiers| - 1];
      var last := tiers[|tiers| - 1];
      var rest := BestCharge(init, orderValue);
      assert forall k :: 0 <= k < |init| ==> tiers[k] == init[k];
      if Qualifies(last, orderValue) && last.charge > rest then last.charge else rest
  }

  /** The loop over the tier list, skipping inactive tiers. */
  method ApplicableCharge(tiers: seq<Tier>, orderValue: real) returns (charge: real)
    ensures charge == BestCharge(tiers, orderValue)
  {
    charge := 0.0;
    for i := 0 to |tiers|
      invariant charge == BestCharge(tiers[..i], orderValue)
    {
      assert tiers[..i + 1][..i] == tiers[..i];
      var t := tiers[i];
      if !t.isActive {
        continue;
      }
      if orderValue >= t.minOrderValue && t.charge > charge {
        charge := t.charge;
      }
    }
    assert tiers[..|tiers|] == tiers;
  }

  /** The first pincode record with the given number, as the filtered scan returns them. */
  function FirstWithNumber(pincodes: seq<Pincode>, number: string): (r: Option<Pincode>)
    ensures r.None? <==> forall k :: 0 <= k < |pincodes| ==> pincodes[k].pincodeNumber != number
    ensures r.Some? ==> r.value in pincodes && r.value.pincodeNumber == number
  {
    if pincodes == [] then None
    else if pincodes[0].pincodeNumber == number then Some(pincodes[0])
    else FirstWithNumber(pincodes[1..], number)
  }

  /** get_delivery_charge_for_pincode: 0 for an unknown pincode or one without tiers. */
  method ChargeForPincode(pincodes: seq<Pincode>, number: string, orderValue: real) returns (charge: real)
    ensures charge >= 0.0
    ensures FirstWithNumber(pincodes, number).None? ==> charge == 0.0
    ensures FirstWithNumber(pincodes, number).Some? ==>
              charge == BestCharge(FirstWithNumber(pincodes, number).value.tiers, orderValue)
  {
    var found := FirstWithNumber(pincodes, number);
    if found.None? {
      return 0.0;
    }
    var tiers := found.value.tiers;
    if |tiers| == 0 {
      return 0.0;
    }
    charge := ApplicableCharge(tiers, orderValue);
  }

  /** Any value bounded like BestCharge is BestCharge: the contract pins the charge down. */
  lemma {:induction false} BestChargeUnique(tiers: seq<Tier>, orderValue: real, c: real)
    requires c >= 0.0
    requires forall k :: 0 <= k < |tiers| && Qualifies(tiers[k], orderValue) ==> tiers[k].charge <= c
    requires c == 0.0 || exists k :: 0 <= k < |tiers| && Qualifies(tiers[k], orderValue) && tiers[k].charge == c
    ensures c == BestCharge(tiers, orderValue)
  {
    var b := BestCharge(tiers, orderValue);
    if c != 0.0 {
      var k :| 0 <= k < |tiers| && Qualifies(tiers[k], orderValue) && tiers[k].charge == c;
      assert c <= b;
    }
    if b != 0.0 {
      var k :| 0 <= k < |tiers| && Qualifies(tiers[k], orderValue) && tiers[k].charge == b;
      assert b <= c;
    }
  }

  /** Removing an inactive tier never changes the charge of any order. */
  lemma {:induction false} InactiveTierNeverContributes(tiers: seq<Tier>, orderValue: real, j: int)
    requires 0 <= j < |tiers| && !tiers[j].isActive
    ensures BestCharge(tiers[..j] + tiers[j + 1..], orderValue) == BestCharge(tiers, orderValue)
  {
    var rest := tiers[..j] + tiers[j + 1..];
    var b := BestCharge(rest, orderValue);
    forall k | 0 <= k < |tiers| && Qualifies(tiers[k], orderValue)
      ensures tiers[k].charge <= b
    {
      if k < j {
        assert rest[k] == tiers[k];
      } else {
        assert k != j;
        assert rest[k - 1] == tiers[k];
      }
    }
    if b != 0.0 {
      var k :| 0 <= k < |rest| && Qualifies(rest[k], orderValue) && rest[k].charge == b;
      if k < j {
        assert rest[k] == tiers[k];
      } else {
        assert rest[k] == tiers[k + 1];
      }
    }
    BestChargeUnique(tiers, orderValue, b);
  }

  /** A larger order never pays a smaller charge: every tier it reaches, the larger order reaches too. */
  lemma {:induction false} ChargeGrowsWithOrderValue(tiers: seq<Tier>, v: real, w: real)
    requires v <= w
    ensures BestCharge(tiers, v) <= BestCharge(tiers, w)
  {
    var b := BestCharge(tiers, v);
    if b != 0.0 {
      var k :| 0 <= k < |tiers| && Qualifies(tiers[k], v) && tiers[k].charge == b;
      assert Qualifies(tiers[k], w);
    }
  }

  /**
   * The greatest charge wins: with tiers (500, 40) and (1000, 20) an order of
   * 1200 pays 40, not the 20 of the tier with the higher minimum; an order of
   * 300 pays nothing; an inactive tier is ignored.
   */
  lemma GreatestChargeWins()
    ensures BestCharge([Tier("a", 500.0, 40.0, true), Tier("b", 1000.0, 20.0, true)], 1200.0) == 40.0
    ensures BestCharge([Tier("a", 500.0, 40.0, true), Tier("b", 1000.0, 20.0, true)], 300.0) == 0.0
    ensures BestCharge([Tier("a", 500.0, 40.0, false), Tier("b", 1000.0, 20.0, true)], 1200.0) == 20.0
  {
    var a, b := Tier("a", 500.0, 40.0, true), Tier("b", 1000.0, 20.0, true);
    assert [a, b][..1] == [a];
    var a' := Tier("a", 500.0, 40.0, false);
    assert [a', b][..1] == [a'];
  }

  // ---------------------------------------------------------------- tier edits

  datatype TierError = PincodeNotFound | ValueRequired | ChargeNotBelowMinimum | ChargeNotFound

  /** Python truthiness of an optional Decimal: present and non-zero. */
  predicate Truthy(x: Option<real>) {
    x.Some? && x.value != 0.0
  }

  /**
   * The tier list create_pincode starts with. Both values are optional; a
   * charge not below a (non-zero) minimum is refused, and a tier is created only
   * when both values are present and non-zero.
   */
  function InitialTiers(chargeId: string, minOrder: Option<real>, charge: Option<real>): (r: Result<seq<Tier>, TierError>)
    ensures r.Err? <==> Truthy(minOrder) && charge.Some? && charge.value >= minOrder.value
    ensures r.Err? ==> r.error == ChargeNotBelowMinimum
    ensures r.Ok? ==> (|r.value| == 1 <==> Truthy(minOrder) && Truthy(charge)) && |r.value| <= 1
    ensures r.Ok? ==> forall t :: t in r.value ==>
              t.isActive && t.charge < t.minOrderValue && t.id == chargeId
              && Some(t.minOrderValue) == minOrder && Some(t.charge) == charge
  {
    if Truthy(minOrder) && charge.Some? && charge.value >= minOrder.value then Err(ChargeNotBelowMinimum)
    else if Truthy(minOrder) && Truthy(charge) then Ok([Tier(chargeId, minOrder.value, charge.value, true)])
    else Ok([])
  }

  /**
   * add_delivery_charge: both values are required; the new active tier
   * REPLACES the whole list. Unlike create_pincode there is no check that the
   * charge lies below the minimum.
   */
  function AddDeliveryCharge(found: Option<Pincode>, chargeId: string, minOrder: Option<real>, charge: Option<real>): (r: Result<Pincode, TierError>)
    ensures found.None? ==> r == Err(PincodeNotFound)
    ensures found.Some? && (minOrder.None? || charge.None?) ==> r == Err(ValueRequired)
    ensures found.Some? && minOrder.Some? && charge.Some? ==> r.Ok?
    ensures r.Ok? ==> r.value == found.value.(tiers := [Tier(chargeId, minOrder.value, charge.value, true)])
  {
    if found.None? then Err(PincodeNotFound)
    else if minOrder.None? || charge.None? then Err(ValueRequired)
    else Ok(found.value.(tiers := [Tier(chargeId, minOrder.value, charge.value, true)]))
  }

  /** After add_delivery_charge the charge of an order is the new tier's charge once the order reaches its minimum. */
  lemma {:induction false} ChargeAfterAdd(p: Pincode, chargeId: string, m: real, c: real, orderValue: real)
    requires AddDeliveryCharge(Some(p), chargeId, Some(m), Some(c)).Ok?
    ensures var q := AddDeliveryCharge(Some(p), chargeId, Some(m), Some(c)).value;
            BestCharge(q.tiers, orderValue) == if m <= orderValue && c > 0.0 then c else 0.0
  {
    var t := Tier(chargeId, m, c, true);
    assert [t][..0] == [];
  }

  /** add_delivery_charge accepts a charge above the minimum, which create_pincode would refuse. */
  lemma AddAcceptsChargeAboveMinimum(p: Pincode)
    ensures InitialTiers("c", Some(100.0), Some(150.0)) == Err(ChargeNotBelowMinimum)
    ensures AddDeliveryCharge(Some(p), "c", Some(100.0), Some(150.0)).Ok?
  {
  }

  /** The tiers whose id differs from the given one, in their order. */
  function WithoutTier(tiers: seq<Tier>, chargeId: string): (r: seq<Tier>)
    ensures forall t :: t in r <==> t in tiers && t.id != chargeId
    ensures |r| <= |tiers|
    ensures (exists k :: 0 <= k < |tiers| && tiers[k].id == chargeId) ==> |r| < |tiers|
  {
    if tiers == [] then []
    else
      var init := tiers[..|tiers| - 1];
      var last := tiers[|tiers| - 1];
      var rest := WithoutTier(init, chargeId);
      assert forall t :: t in tiers <==> t in init || t == last;
      assert forall k :: 0 <= k < |init| ==> tiers[k] == init[k];
      if last.id == chargeId then rest else rest + [last]
  }

  /** The filter keeps order and multiplicity: filtering a concatenation filters each part. */
  lemma {:induction false} WithoutTierAppend(a: seq<Tier>, b: seq<Tier>, chargeId: string)
    ensures WithoutTier(a + b, chargeId) == WithoutTier(a, chargeId) + WithoutTier(b, chargeId)
    decreases |b|
  {
    if b == [] {
      assert a + b == a;
    } else {
      var c := b[..|b| - 1];
      var last := b[|b| - 1];
      assert (a + b)[..|a + b| - 1] == a + c;
      assert (a + b)[|a + b| - 1] == last;
      WithoutTierAppend(a, c, chargeId);
    }
  }

  /** One tier is dropped exactly when it carries the id. */
  lemma WithoutTierOne(t: Tier, chargeId: string)
    ensures WithoutTier([t], chargeId) == if t.id == chargeId then [] else [t]
  {
    assert [t][..0] == [];
  }

  predicate HasTier(tiers: seq<Tier>, chargeId: string) {
    exists k :: 0 <= k < |tiers| && tiers[k].id == chargeId
  }

  /**
   * delete_delivery_charge: an unknown pincode or charge id is an error; when
   * the deletion is not confirmed nothing changes; otherwise every tier with
   * that id is removed.
   */
  function DeleteDeliveryCharge(found: Option<Pincode>, chargeId: string, confirmed: bool): (r: Result<Pincode, TierError>)
    ensures found.None? ==> r == Err(PincodeNotFound)
    ensures found.Some? ==> (r == Err(ChargeNotFound) <==> !HasTier(found.value.tiers, chargeId))
    ensures found.Some? && HasTier(found.value.tiers, chargeId) ==> r.Ok?
    ensures r.Ok? ==> r.value.(tiers := found.value.tiers) == found.value
    ensures r.Ok? && !confirmed ==> r.value == found.value
    ensures r.Ok? && confirmed ==>
              r.value.tiers == WithoutTier(found.value.tiers, chargeId)
              && (forall t :: t in r.value.tiers <==> t in found.value.tiers && t.id != chargeId)
              && |r.value.tiers| < |found.value.tiers|
  {
    if found.None? then Err(PincodeNotFound)
    else if !HasTier(found.value.tiers, chargeId) then Err(ChargeNotFound)
    else if !confirmed then Ok(found.value)
    else Ok(found.value.(tiers := WithoutTier(found.value.tiers, chargeId)))
  }

  // ---------------------------------------------------------------- delivery slots

  datatype Slot = Slot(name: string, startTime: string, endTime: string, isActive: bool)
  datatype DeliveryType = DeliveryType(name: string, isActive: bool, slots: seq<Slot>)

  /** The de-duplication key (name, time, delivery type) of an offered slot. */
  datatype SlotKey = SlotKey(name: string, time: string, deliveryType: string)
  datatype SlotOffer = SlotOffer(name: string, time: string, fullString: string, deliveryType: string)

  function KeyOf(typeName: string, s: Slot): SlotKey {
    SlotKey(s.name, s.startTime + " - " + s.endTime, typeName)
  }

  function OfferOf(k: SlotKey): SlotOffer {
    SlotOffer(k.name, k.time, k.time + " (" + k.name + ")", k.deliveryType)
  }

  function OffersOf(keys: seq<SlotKey>): (r: seq<SlotOffer>)
    ensures |r| == |keys| && forall i :: 0 <= i < |keys| ==> r[i] == OfferOf(keys[i])
  {
    seq(|keys|, i requires 0 <= i < |keys| => OfferOf(keys[i]))
  }

  /** The keys of the active slots of one delivery type, in order. */
  function SlotKeys(typeName: string, slots: seq<Slot>): seq<SlotKey> {
    if slots == [] then []
    else
      var last := slots[|slots| - 1];
      SlotKeys(typeName, slots[..|slots| - 1]) + if last.isActive then [KeyOf(typeName, last)] else []
  }

  /** Whether a delivery type contributes: it is named by the pincode and active. */
  predicate Selected(names: seq<string>, dt: DeliveryType) {
    dt.name in names && dt.isActive
  }

  /** Every candidate key, delivery type by delivery type, before de-duplication. */
  function Candidates(names: seq<string>, types: seq<DeliveryType>): seq<SlotKey> {
    if types == [] then []
    else
      var last := types[|types| - 1];
      Candidates(names, types[..|types| - 1]) + if Selected(names, last) then SlotKeys(last.name, last.slots) else []
  }

  predicate NoDuplicates(xs: seq<SlotKey>) {
    forall i, j :: 0 <= i < j < |xs| ==> xs[i] != xs[j]
  }

  /** The first occurrence of each element, in order. */
  function DedupFirst(xs: seq<SlotKey>): (r: seq<SlotKey>)
    ensures NoDuplicates(r)
    ensures forall x :: x in r <==> x in xs
  {
    if xs == [] then []
    else
      var init := xs[..|xs| - 1];
      var last := xs[|xs| - 1];
      assert forall x :: x in xs <==> x in init || x == last;
      if last in init then DedupFirst(init) else DedupFirst(init) + [last]
  }

  lemma SlotKeysStep(typeName: string, slots: seq<Slot>, j: int)
    requires 0 <= j < |slots|
    ensures SlotKeys(typeName, slots[..j + 1])
            == SlotKeys(typeName, slots[..j]) + if slots[j].isActive then [KeyOf(typeName, slots[j])] else []
  {
    assert slots[..j + 1][..j] == slots[..j];
  }

  lemma OffersOfStep(keys: seq<SlotKey>, key: SlotKey)
    ensures OffersOf(keys + [key]) == OffersOf(keys) + [OfferOf(key)]
  {
  }

  lemma DedupStep(stream: seq<SlotKey>, key: SlotKey)
    ensures DedupFirst(stream + [key]) == if key in stream then DedupFirst(stream) else DedupFirst(stream) + [key]
  {
    assert (stream + [key])[..|stream|] == stream;
  }

  /**
   * add_slots_from_source: appends the offers of one delivery type's active
   * slots whose key has not been seen, recording each new key.
   */
  method OfferTypeSlots(typeName: string, slots: seq<Slot>, ghost before: seq<SlotKey>, ghost keys0: seq<SlotKey>,
                        offers0: seq<SlotOffer>, seen0: set<SlotKey>)
    returns (ghost keys: seq<SlotKey>, offers: seq<SlotOffer>, seen: set<SlotKey>)
    requires keys0 == DedupFirst(before) && offers0 == OffersOf(keys0)
    requires forall k :: k in seen0 <==> k in keys0
    ensures keys == DedupFirst(before + SlotKeys(typeName, slots)) && offers == OffersOf(keys)
    ensures forall k :: k in seen <==> k in keys
  {
    keys, offers, seen := keys0, offers0, seen0;
    assert slots[..0] == [];
    assert before + SlotKeys(typeName, slots[..0]) == before;
    for j := 0 to |slots|
      invariant keys == DedupFirst(before + SlotKeys(typeName, slots[..j]))
      invariant offers == OffersOf(keys)
      invariant forall k :: k in seen <==> k in keys
    {
      ghost var stream := before + SlotKeys(typeName, slots[..j]);
      SlotKeysStep(typeName, slots, j);
      var slot := slots[j];
      if !slot.isActive {
        assert before + SlotKeys(typeName, slots[..j + 1]) == stream;
        continue;
      }
      var key := KeyOf(typeName, slot);
      assert before + SlotKeys(typeName, slots[..j + 1]) == stream + [key];
      DedupStep(stream, key);
      if key in seen {
        continue;
      }
      OffersOfStep(keys, key);
      seen := seen + {key};
      keys := keys + [key];
      offers := offers + [OfferOf(key)];
    }
    assert slots[..|slots|] == slots;
  }

  /**
   * get_available_slots_for_pincode: walks the delivery types the pincode
   * names, skips inactive types and slots, and offers each (name, time, type)
   * once, in order of first appearance.
   */
  method AvailableSlots(names: seq<string>, types: seq<DeliveryType>) returns (offers: seq<SlotOffer>)
    ensures offers == OffersOf(DedupFirst(Candidates(names, types)))
  {
    offers := [];
    var seen: set<SlotKey> := {};
    ghost var keys: seq<SlotKey> := [];
    for i := 0 to |types|
      invariant keys == DedupFirst(Candidates(names, types[..i]))
      invariant offers == OffersOf(keys)
      invariant forall k :: k in seen <==> k in keys
    {
      assert types[..i + 1][..i] == types[..i];
      var dt := types[i];
      if !Selected(names, dt) {
        assert Candidates(names, types[..i + 1]) == Candidates(names, types[..i]) + [];
        assert Candidates(names, types[..i + 1]) == Candidates(names, types[..i]);
        continue;
      }
      assert Candidates(names, types[..i + 1]) == Candidates(names, types[..i]) + SlotKeys(dt.name, dt.slots);
      keys, offers, seen := OfferTypeSlots(dt.name, dt.slots, Candidates(names, types[..i]), keys, offers, seen);
    }
    assert types[..|types|] == types;
  }

  /** A slot key is a candidate exactly when it is the key of an active slot of a selected, active type. */
  lemma {:induction false} CandidateIff(names: seq<string>, types: seq<DeliveryType>, k: SlotKey)
    ensures k in Candidates(names, types) <==>
              exists i, j :: 0 <= i < |types| && Selected(names, types[i]) && 0 <= j < |types[i].slots|
                             && types[i].slots[j].isActive && k == KeyOf(types[i].name, types[i].slots[j])
    decreases |types|
  {
    if types != [] {
      var n := |types| - 1;
      var init := types[..n];
      CandidateIff(names, init, k);
      var last := types[n];
      if k in Candidates(names, types) {
        if k !in Candidates(names, init) {
          assert Selected(names, last) && k in SlotKeys(last.name, last.slots);
          var j := SlotKeyIndex(last.name, last.slots, k);
          assert types[n].slots[j].isActive && k == KeyOf(types[n].name, types[n].slots[j]);
        } else {
          var i, j :| 0 <= i < |init| && Selected(names, init[i]) && 0 <= j < |init[i].slots|
                      && init[i].slots[j].isActive && k == KeyOf(init[i].name, init[i].slots[j]);
          assert types[i] == init[i];
        }
      } else {
        forall i, j | 0 <= i < |types| && Selected(names, types[i]) && 0 <= j < |types[i].slots|
                      && types[i].slots[j].isActive
          ensures k != KeyOf(types[i].name, types[i].slots[j])
        {
          if i < n {
            assert types[i] == init[i];
          } else {
            SlotKeyMember(last.name, last.slots, j);
          }
        }
      }
    }
  }

  lemma {:induction false} SlotKeyIndex(typeName: string, slots: seq<Slot>, k: SlotKey) returns (j: int)
    requires k in SlotKeys(typeName, slots)
    ensures 0 <= j < |slots| && slots[j].isActive && k == KeyOf(typeName, slots[j])
    decreases |slots|
  {
    var n := |slots| - 1;
    if k in SlotKeys(typeName, slots[..n]) {
      j := SlotKeyIndex(typeName, slots[..n], k);
      assert slots[..n][j] == slots[j];
    } else {
      j := n;
    }
  }

  lemma {:induction false} SlotKeyMember(typeName: string, slots: seq<Slot>, j: int)
    requires 0 <= j < |slots| && slots[j].isActive
    ensures KeyOf(typeName, slots[j]) in SlotKeys(typeName, slots)
    decreases |slots|
  {
    var n := |slots| - 1;
    if j < n {
      SlotKeyMember(typeName, slots[..n], j);
      assert slots[..n][j] == slots[j];
    }
  }

  /**
   * What the pincode offers: no two offers share a key, and a slot is offered
   * exactly when it is an active slot of an active delivery type the pincode names.
   */
  lemma {:induction false} OffersAreTheActiveSlots(names: seq<string>, types: seq<DeliveryType>, k: SlotKey)
    ensures NoDuplicates(DedupFirst(Candidates(names, types)))
    ensures OfferOf(k) in OffersOf(DedupFirst(Candidates(names, types))) <==>
              exists i, j :: 0 <= i < |types| && Selected(names, types[i]) && 0 <= j < |types[i].slots|
                             && types[i].slots[j].isActive && k == KeyOf(types[i].name, types[i].slots[j])
  {
    var keys := DedupFirst(Candidates(names, types));
    var offers := OffersOf(keys);
    CandidateIff(names, types, k);
    if OfferOf(k) in offers {
      var i :| 0 <= i < |offers| && offers[i] == OfferOf(k);
      OfferOfInjective(keys[i], k);
      assert keys[i] in keys;
    }
    if k in keys {
      var i :| 0 <= i < |keys| && keys[i] == k;
      assert offers[i] == OfferOf(k);
    }
  }

  lemma OfferOfInjective(a: SlotKey, b: SlotKey)
    requires OfferOf(a) == OfferOf(b)
    ensures a == b
  {
  }
}
