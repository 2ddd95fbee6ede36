/** The invoice pricing calculator: validation of an invoice, then subtotal,
    fragile fee, membership and coupon discount, shipping by tier, tax, and
    the clamped total with its advisory warnings. Money is an exact `real`. */
module InvoiceService {
  import opened Text

  datatype Option<T> = None | Some(value: T)

  /** A line of an invoice. `category` is carried but never read. */
  datatype LineItem = LineItem(sku: string, category: string, unitPrice: real, qty: int, fragile: bool)

  datatype Invoice = Invoice(
    invoiceId: string,
    customerId: string,
    country: string,
    membership: string,
    coupon: Option<string>,
    items: seq<LineItem>)

  /** A shipping tier: `cost` applies when the subtotal is below `limit`. */
  datatype Tier = Tier(limit: real, cost: real)

  /** The three read-only pricing tables the calculator is built with. */
  datatype Tables = Tables(
    shipping: map<string, seq<Tier>>,
    taxRate: map<string, real>,
    couponRate: map<string, real>)
  {
    /** The fallback rows are looked up unconditionally, so they must exist. */
    predicate Valid() {
      Default in shipping && Default in taxRate
    }
  }

  /** Why an invoice was refused; the item case names the offending sku. */
  datatype ValidationError = InvalidHeader | NoItems | InvalidItem(sku: string)

  datatype Outcome = Pass | Fail(error: ValidationError)

  /** The total payable and the warnings, in the order they were raised. */
  datatype Priced = Priced(total: real, warnings: seq<string>)

  datatype Result = Ok(value: Priced) | Err(error: ValidationError)

  const Default: string := "DEFAULT"
  const Gold: string := "gold"
  const Platinum: string := "platinum"
  const GoldRate: real := 0.03
  const PlatinumRate: real := 0.05
  const BulkThreshold: real := 3000.0
  const BulkDiscount: real := 20.0
  const FragileFeePerUnit: real := 5.0
  const UpgradeThreshold: real := 10000.0
  const UnknownCoupon: string := "Unknown coupon"
  const UpgradeAdvice: string := "Consider membership upgrade"

  /** The tables the service is configured with. */
  const Configured: Tables := Tables(
    map[
      "TH" := [Tier(500.0, 60.0)],
      "JP" := [Tier(4000.0, 600.0)],
      "US" := [Tier(100.0, 15.0), Tier(300.0, 8.0)],
      Default := [Tier(200.0, 25.0)]],
    map["TH" := 0.07, "JP" := 0.10, "US" := 0.08, Default := 0.05],
    map["WELCOME10" := 0.10, "VIP20" := 0.20, "STUDENT5" := 0.05])

  // ---------------------------------------------------------------------
  // Validation

  predicate HeaderValid(inv: Invoice) {
    inv.invoiceId != "" && inv.customerId != ""
  }

  predicate ItemValid(it: LineItem) {
    it.sku != "" && it.qty > 0 && it.unitPrice >= 0.0
  }

  predicate AllItemsValid(items: seq<LineItem>) {
    forall k :: 0 <= k < |items| ==> ItemValid(items[k])
  }

  /** The position of the first invalid item, if there is one. */
  function FirstInvalidItem(items: seq<LineItem>): (r: Option<nat>)
    ensures r.Some? ==> r.value < |items| && !ItemValid(items[r.value])
  {
    if items == [] then None
    else if !ItemValid(items[0]) then Some(0)
    else match FirstInvalidItem(items[1..])
      case None => None
      case Some(k) => Some(k + 1)
  }

  /** There is no invalid item exactly when every item is valid; otherwise
      the position found is of an invalid item, and every item before it is
      valid. */
  lemma {:induction false} FirstInvalidItemIsFirst(items: seq<LineItem>)
    ensures FirstInvalidItem(items).None? <==> AllItemsValid(items)
    ensures FirstInvalidItem(items).Some? ==>
      var k := FirstInvalidItem(items).value;
      && k < |items|
      && !ItemValid(items[k])
      && forall j :: 0 <= j < k ==> ItemValid(items[j])
  {
    if items != [] && ItemValid(items[0]) {
      FirstInvalidItemIsFirst(items[1..]);
      assert forall j :: 1 <= j < |items| ==> items[j] == items[1..][j - 1];
    }
  }

  /** What validation decides: the header is checked first, then that there
      are items, then every item; the first bad item is the one reported. */
  function Validation(inv: Option<Invoice>): Outcome {
    if inv.None? || !HeaderValid(inv.value) then Fail(InvalidHeader)
    else if inv.value.items == [] then Fail(NoItems)
    else match FirstInvalidItem(inv.value.items)
      case Some(k) => Fail(InvalidItem(inv.value.items[k].sku))
      case None => Pass
  }

  /** Validation passes exactly for a present invoice with both ids, some
      items and every item valid; a missing invoice or id is a header error;
      a valid header without items is the empty-list error; anything else
      names the sku of the first invalid item. */
  lemma ValidationCases(inv: Option<Invoice>)
    ensures Validation(inv).Pass? <==>
      inv.Some? && HeaderValid(inv.value) && inv.value.items != [] && AllItemsValid(inv.value.items)
    ensures Validation(inv) == Fail(InvalidHeader) <==> inv.None? || !HeaderValid(inv.value)
    ensures Validation(inv) == Fail(NoItems) <==> inv.Some? && HeaderValid(inv.value) && inv.value.items == []
    ensures Validation(inv).Fail? && Validation(inv).error.InvalidItem? ==>
      exists k :: 0 <= k < |inv.value.items| && !ItemValid(inv.value.items[k])
        && Validation(inv).error.sku == inv.value.items[k].sku
        && forall j :: 0 <= j < k ==> ItemValid(inv.value.items[j])
  {
    if inv.Some? {
      FirstInvalidItemIsFirst(inv.value.items);
    }
  }

  /** The validation step: header, item list, then a scan of the items that
      stops at the first bad one. */
  method Validate(inv: Option<Invoice>) returns (r: Outcome)
    ensures r == Validation(inv)
  {
    if inv.None? || inv.value.invoiceId == "" || inv.value.customerId == "" {
      return Fail(InvalidHeader);
    }
    var items := inv.value.items;
    if items == [] {
      return Fail(NoItems);
    }
    FirstInvalidItemIsFirst(items);
    for i := 0 to |items|
      invariant forall k :: 0 <= k < i ==> ItemValid(items[k])
    {
      var it := items[i];
      if it.sku == "" || it.qty <= 0 || it.unitPrice < 0.0 {
        assert FirstInvalidItem(items) == Some(i);
        return Fail(InvalidItem(it.sku));
      }
    }
    return Pass;
  }

  // ---------------------------------------------------------------------
  // Sums over the items

  /** The sum of `f` over the items. */
  function Sum(items: seq<LineItem>, f: LineItem -> real): real {
    if items == [] then 0.0 else f(items[0]) + Sum(items[1..], f)
  }

  /** A sum of non-negative terms is non-negative, and a sum of zeros is
      zero. */
  lemma {:induction false} SumBounds(items: seq<LineItem>, f: LineItem -> real)
    ensures (forall k :: 0 <= k < |items| ==> f(items[k]) >= 0.0) ==> Sum(items, f) >= 0.0
    ensures (forall k :: 0 <= k < |items| ==> f(items[k]) == 0.0) ==> Sum(items, f) == 0.0
  {
    if items != [] {
      SumBounds(items[1..], f);
      assert forall k :: 0 <= k < |items| - 1 ==> items[1..][k] == items[k + 1];
    }
  }

  function LineAmount(it: LineItem): real {
    it.unitPrice * it.qty as real
  }

  function LineFragileFee(it: LineItem): real {
    if it.fragile then FragileFeePerUnit * it.qty as real else 0.0
  }

  /** The sum of unit price times quantity over the items. */
  function Subtotal(items: seq<LineItem>): real {
    Sum(items, LineAmount)
  }

  /** The surcharge of 5 per unit of every fragile item. */
  function FragileFee(items: seq<LineItem>): real {
    Sum(items, LineFragileFee)
  }

  /** For valid items the subtotal and the fragile fee are non-negative,
      and the fee is zero when no item is fragile. */
  lemma ItemSumsBounds(items: seq<LineItem>)
    ensures AllItemsValid(items) ==> Subtotal(items) >= 0.0 && FragileFee(items) >= 0.0
    ensures (forall k :: 0 <= k < |items| ==> !items[k].fragile) ==> FragileFee(items) == 0.0
  {
    SumBounds(items, LineAmount);
    SumBounds(items, LineFragileFee);
    if AllItemsValid(items) {
      assert forall k :: 0 <= k < |items| ==> LineAmount(items[k]) >= 0.0 by {
        forall k | 0 <= k < |items| ensures LineAmount(items[k]) >= 0.0 {
          NonNegativeProduct(items[k].unitPrice, items[k].qty as real);
        }
      }
    }
  }

  lemma NonNegativeProduct(a: real, b: real)
    requires a >= 0.0 && b >= 0.0
    ensures a * b >= 0.0
  {
  }

  // ---------------------------------------------------------------------
  // Shipping and tax

  /** The country's tier list, or the fallback list for an unknown country. */
  function TiersFor(t: Tables, country: string): seq<Tier>
    requires t.Valid()
  {
    if country in t.shipping then t.shipping[country] else t.shipping[Default]
  }

  /** Tier `k` is the first one, in listed order, whose limit is above the
      subtotal. */
  predicate FirstFitting(tiers: seq<Tier>, k: int, subtotal: real) {
    && 0 <= k < |tiers|
    && subtotal < tiers[k].limit
    && forall j :: 0 <= j < k ==> tiers[j].limit <= subtotal
  }

  predicate NoneFitting(tiers: seq<Tier>, subtotal: real) {
    forall k :: 0 <= k < |tiers| ==> tiers[k].limit <= subtotal
  }

  /** The cost of the first tier, in listed order, whose limit is above
      the subtotal, or 0 when there is none. */
  function TierCost(tiers: seq<Tier>, subtotal: real): real {
    if tiers == [] then 0.0
    else if subtotal < tiers[0].limit then tiers[0].cost
    else TierCost(tiers[1..], subtotal)
  }

  /** The cost is that of the first tier whose limit is above the subtotal,
      0 when the subtotal is at or above every limit, and never negative
      when no tier cost is. */
  lemma {:induction false} TierCostIsFirstFitting(tiers: seq<Tier>, subtotal: real)
    ensures forall k :: FirstFitting(tiers, k, subtotal) ==> TierCost(tiers, subtotal) == tiers[k].cost
    ensures NoneFitting(tiers, subtotal) ==> TierCost(tiers, subtotal) == 0.0
    ensures (forall k :: 0 <= k < |tiers| ==> tiers[k].cost >= 0.0) ==> TierCost(tiers, subtotal) >= 0.0
  {
    if tiers != [] && tiers[0].limit <= subtotal {
      TierCostIsFirstFitting(tiers[1..], subtotal);
      assert forall k :: FirstFitting(tiers, k, subtotal) ==> k > 0 && FirstFitting(tiers[1..], k - 1, subtotal);
      assert NoneFitting(tiers, subtotal) ==> NoneFitting(tiers[1..], subtotal);
    }
  }

  function Shipping(t: Tables, country: string, subtotal: real): real
    requires t.Valid()
  {
    TierCost(TiersFor(t, country), subtotal)
  }

  /** The shipping lookup: scans the country's tiers in their listed order
      and stops at the first one whose limit exceeds the subtotal. */
  method ShippingCost(t: Tables, country: string, subtotal: real) returns (cost: real)
    requires t.Valid()
    ensures cost == Shipping(t, country, subtotal)
  {
    var rules := if country in t.shipping then t.shipping[country] else t.shipping[Default];
    TierCostIsFirstFitting(rules, subtotal);
    for i := 0 to |rules|
      invariant forall j :: 0 <= j < i ==> rules[j].limit <= subtotal
    {
      if subtotal < rules[i].limit {
        assert FirstFitting(rules, i, subtotal);
        return rules[i].cost;
      }
    }
    assert NoneFitting(rules, subtotal);
    return 0.0;
  }

  function TaxRate(t: Tables, country: string): real
    requires t.Valid()
  {
    if country in t.taxRate then t.taxRate[country] else t.taxRate[Default]
  }

  function Tax(t: Tables, country: string, amount: real): real
    requires t.Valid()
  {
    amount * TaxRate(t, country)
  }

  // ---------------------------------------------------------------------
  // Discounts and warnings

  /** The one base discount a membership gets: a percentage for gold and
      platinum, otherwise the flat bulk discount above the bulk threshold. */
  function BaseDiscount(membership: string, subtotal: real): real {
    if membership == Gold then subtotal * GoldRate
    else if membership == Platinum then subtotal * PlatinumRate
    else if subtotal > BulkThreshold then BulkDiscount
    else 0.0
  }

  /** The base discount never exceeds a non-negative subtotal. */
  lemma BaseDiscountBounded(membership: string, subtotal: real)
    requires subtotal >= 0.0
    ensures 0.0 <= BaseDiscount(membership, subtotal) <= subtotal
  {
  }

  /** What a coupon does: nothing when it is absent or empty, adds its rate
      when its stripped code has a non-zero rate, warns otherwise. */
  datatype CouponEffect = NoCoupon | Recognised(rate: real) | Unrecognised

  function CouponEffectOf(t: Tables, coupon: Option<string>): CouponEffect {
    if coupon.None? || coupon.value == "" then NoCoupon
    else
      var key := Strip(coupon.value);
      if key in t.couponRate && t.couponRate[key] != 0.0 then Recognised(t.couponRate[key])
      else Unrecognised
  }

  function CouponDiscount(t: Tables, coupon: Option<string>, subtotal: real): real {
    match CouponEffectOf(t, coupon)
    case Recognised(rate) => subtotal * rate
    case _ => 0.0
  }

  /** The whole discount: the base discount plus the coupon's share. */
  function Discount(t: Tables, inv: Invoice, subtotal: real): real {
    BaseDiscount(inv.membership, subtotal) + CouponDiscount(t, inv.coupon, subtotal)
  }

  predicate NeedsUpgradeAdvice(membership: string, subtotal: real) {
    subtotal > UpgradeThreshold && membership != Gold && membership != Platinum
  }

  function Warnings(t: Tables, inv: Invoice): seq<string> {
    (if CouponEffectOf(t, inv.coupon) == Unrecognised then [UnknownCoupon] else [])
    + (if NeedsUpgradeAdvice(inv.membership, Subtotal(inv.items)) then [UpgradeAdvice] else [])
  }

  // ---------------------------------------------------------------------
  // The pricing pipeline

  function Max0(x: real): real {
    if x > 0.0 then x else 0.0
  }

  /** The amount before clamping at zero: shipping is on the subtotal before
      discount, tax on the discounted subtotal, the discount taken once. */
  function Gross(t: Tables, inv: Invoice): real
    requires t.Valid()
  {
    var subtotal := Subtotal(inv.items);
    var discount := Discount(t, inv, subtotal);
    subtotal + Shipping(t, inv.country, subtotal) + FragileFee(inv.items)
      + Tax(t, inv.country, subtotal - discount) - discount
  }

  /** The gross amount assembled from its parts, computed one at a time. */
  lemma GrossFromParts(t: Tables, inv: Invoice, subtotal: real, shipping: real, fee: real, discount: real, tax: real)
    requires t.Valid()
    requires subtotal == Subtotal(inv.items) && fee == FragileFee(inv.items)
    requires shipping == Shipping(t, inv.country, subtotal)
    requires discount == Discount(t, inv, subtotal)
    requires tax == Tax(t, inv.country, subtotal - discount)
    ensures Gross(t, inv) == subtotal + shipping + fee + tax - discount
  {
  }

  /** The price of an invoice that passed validation. */
  function Quote(t: Tables, inv: Invoice): Priced
    requires t.Valid()
  {
    Priced(Max0(Gross(t, inv)), Warnings(t, inv))
  }

  /** What pricing an invoice gives: the validation error, or the quote. */
  function Pricing(t: Tables, inv: Option<Invoice>): Result
    requires t.Valid()
  {
    match Validation(inv)
    case Fail(e) => Err(e)
    case Pass => Ok(Quote(t, inv.value))
  }

  /** Pricing fails exactly when validation does, with its error; otherwise
      the total is never negative and is either zero or the gross amount,
      whichever is larger. */
  lemma PricingCases(t: Tables, inv: Option<Invoice>)
    requires t.Valid()
    ensures Pricing(t, inv).Err? <==> Validation(inv).Fail?
    ensures Pricing(t, inv).Err? ==> Pricing(t, inv).error == Validation(inv).error
    ensures Pricing(t, inv).Ok? ==>
      var total := Pricing(t, inv).value.total;
      total >= 0.0 && total >= Gross(t, inv.value) && (total == 0.0 || total == Gross(t, inv.value))
  {
  }

  /** The discount step: the one base discount for the membership, then the
      coupon step on top of it. */
  method ApplyDiscounts(t: Tables, invoice: Invoice, subtotal: real) returns (discount: real, warnings: seq<string>)
    ensures discount == Discount(t, invoice, subtotal)
    ensures warnings == if CouponEffectOf(t, invoice.coupon) == Unrecognised then [UnknownCoupon] else []
  {
    discount := 0.0;
    if invoice.membership == Gold {
      discount := subtotal * GoldRate;
    } else if invoice.membership == Platinum {
      discount := subtotal * PlatinumRate;
    } else if subtotal > BulkThreshold {
      discount := BulkDiscount;
    }
    discount, warnings := ApplyCoupon(t, invoice.coupon, subtotal, discount, []);
  }

  /** The coupon step: a present, non-empty code is stripped and looked up;
      a non-zero rate adds its share of the subtotal to the discount,
      anything else appends "Unknown coupon" and leaves the discount as it
      was. */
  method ApplyCoupon(t: Tables, coupon: Option<string>, subtotal: real, discount: real, warnings: seq<string>)
    returns (discount': real, warnings': seq<string>)
    ensures discount' == discount + CouponDiscount(t, coupon, subtotal)
    ensures warnings' == warnings + if CouponEffectOf(t, coupon) == Unrecognised then [UnknownCoupon] else []
  {
    discount', warnings' := discount, warnings;
    if coupon.Some? && coupon.value != "" {
      var key := Strip(coupon.value);
      var rate := if key in t.couponRate then Some(t.couponRate[key]) else None;
      if rate.Some? && rate.value != 0.0 {
        assert CouponEffectOf(t, coupon) == Recognised(rate.value);
        assert CouponDiscount(t, coupon, subtotal) == subtotal * rate.value;
        discount' := discount' + subtotal * rate.value;
      } else {
        warnings' := warnings' + [UnknownCoupon];
      }
    }
  }

  /** Prices an invoice: validation first, and only when it passes the
      computation, so no partial total is ever produced. */
  method ComputeTotal(t: Tables, inv: Option<Invoice>) returns (r: Result)
    requires t.Valid()
    ensures r == Pricing(t, inv)
  {
    var check := Validate(inv);
    if check.Fail? {
      return Err(check.error);
    }
    var priced := PriceValidated(t, inv.value);
    return Ok(priced);
  }

  /** The computation on a validated invoice, step by step: sum, discount,
      look up shipping, tax the discounted subtotal, clamp the total at zero,
      then add the upgrade advice. */
  method PriceValidated(t: Tables, invoice: Invoice) returns (p: Priced)
    requires t.Valid()
    ensures p == Quote(t, invoice)
  {
    var subtotal := Subtotal(invoice.items);
    var fragileFee := FragileFee(invoice.items);
    var discount, warnings := ApplyDiscounts(t, invoice, subtotal);
    var shipping := ShippingCost(t, invoice.country, subtotal);
    var tax := Tax(t, invoice.country, subtotal - discount);

    var total := subtotal + shipping + fragileFee + tax - discount;
    GrossFromParts(t, invoice, subtotal, shipping, fragileFee, discount, tax);
    if total < 0.0 {
      total := 0.0;
    }

    if subtotal > UpgradeThreshold && invoice.membership != Gold && invoice.membership != Platinum {
      warnings := warnings + [UpgradeAdvice];
    }
    assert warnings == Warnings(t, invoice);
    return Priced(total, warnings);
  }
}
