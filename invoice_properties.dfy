/** Properties of the pricing calculator that relate several invoices or
    several calls, and the worked invoices of the test suite. */
module InvoiceProperties {
  import opened Text
  import opened InvoiceService

  // ---------------------------------------------------------------------
  // Sums over items

  lemma {:induction false} SumAppend(a: seq<LineItem>, b: seq<LineItem>, f: LineItem -> real)
    ensures Sum(a + b, f) == Sum(a, f) + Sum(b, f)
  {
    if a == [] {
      assert a + b == b;
    } else {
      assert (a + b)[1..] == a[1..] + b;
      SumAppend(a[1..], b, f);
    }
  }

  /** A sum over the items does not depend on the order of the items. */
  lemma {:induction false} SumPermutation(a: seq<LineItem>, b: seq<LineItem>, f: LineItem -> real)
    requires multiset(a) == multiset(b)
    ensures Sum(a, f) == Sum(b, f)
    decreases |a|
  {
    if a == [] {
      assert |b| == |multiset(b)| == 0;
    } else {
      var x := a[0];
      assert x in multiset(b);
      var i :| 0 <= i < |b| && b[i] == x;
      var rest := b[..i] + b[i + 1..];
      assert b == b[..i] + ([x] + b[i + 1..]);
      SumAppend(b[..i], [x] + b[i + 1..], f);
      SumAppend(b[..i], b[i + 1..], f);
      assert a == [x] + a[1..];
      assert multiset(a) == multiset{x} + multiset(a[1..]);
      assert multiset(b) == multiset(b[..i]) + multiset([x] + b[i + 1..]);
      assert multiset([x] + b[i + 1..]) == multiset{x} + multiset(b[i + 1..]);
      assert multiset(rest) == multiset(b[..i]) + multiset(b[i + 1..]);
      assert multiset(a[1..]) == multiset(a) - multiset{x};
      assert multiset(rest) == multiset(b) - multiset{x};
      SumPermutation(a[1..], rest, f);
    }
  }

  /** Two invoices with the same item sums, country, membership and coupon
      have the same gross amount and the same warnings. */
  lemma SameCharges(t: Tables, a: Invoice, b: Invoice)
    requires t.Valid()
    requires Subtotal(a.items) == Subtotal(b.items) && FragileFee(a.items) == FragileFee(b.items)
    requires a.country == b.country && a.membership == b.membership && a.coupon == b.coupon
    ensures Gross(t, a) == Gross(t, b) && Warnings(t, a) == Warnings(t, b)
  {
    assert Discount(t, a, Subtotal(a.items)) == Discount(t, b, Subtotal(b.items));
  }

  /** Two invoices that validate alike and have the same gross amount and
      warnings are priced alike. */
  lemma SamePricing(t: Tables, a: Invoice, b: Invoice)
    requires t.Valid()
    requires Validation(Some(a)) == Validation(Some(b))
    requires Gross(t, a) == Gross(t, b) && Warnings(t, a) == Warnings(t, b)
    ensures Pricing(t, Some(a)) == Pricing(t, Some(b))
  {
  }

  /** Reordering the line items of a valid invoice changes nothing in its
      price or its warnings. */
  lemma PricingIgnoresItemOrder(t: Tables, inv: Invoice, items: seq<LineItem>)
    requires t.Valid()
    requires Validation(Some(inv)).Pass?
    requires multiset(items) == multiset(inv.items)
    ensures Pricing(t, Some(inv.(items := items))) == Pricing(t, Some(inv))
  {
    var moved := inv.(items := items);
    ValidationCases(Some(inv));
    ValidationCases(Some(moved));
    assert |items| == |multiset(items)| == |inv.items|;
    forall k | 0 <= k < |items|
      ensures ItemValid(items[k])
    {
      assert items[k] in multiset(inv.items);
    }
    SumPermutation(items, inv.items, LineAmount);
    SumPermutation(items, inv.items, LineFragileFee);
    SameCharges(t, moved, inv);
    SamePricing(t, moved, inv);
  }

  // ---------------------------------------------------------------------
  // Validation

  /** One bad item refuses the whole invoice whatever the other items are;
      with a valid header the refusal names an item, and it names this one
      when every item before it is valid. */
  lemma InvalidItemRejectsInvoice(t: Tables, inv: Invoice, before: seq<LineItem>, bad: LineItem, after: seq<LineItem>)
    requires t.Valid()
    requires inv.items == before + [bad] + after
    requires !ItemValid(bad)
    ensures Pricing(t, Some(inv)).Err?
    ensures HeaderValid(inv) ==> Pricing(t, Some(inv)).error.InvalidItem?
    ensures HeaderValid(inv) && AllItemsValid(before) ==> Pricing(t, Some(inv)).error == InvalidItem(bad.sku)
  {
    var items := inv.items;
    assert items[|before|] == bad;
    ValidationCases(Some(inv));
    if HeaderValid(inv) && AllItemsValid(before) {
      var e := Validation(Some(inv)).error;
      var k :| 0 <= k < |items| && !ItemValid(items[k]) && e.sku == items[k].sku
        && forall j :: 0 <= j < k ==> ItemValid(items[j]);
      assert k == |before|;
    }
  }

  // ---------------------------------------------------------------------
  // Discounts

  /** Gold and platinum discounts are a pure percentage of the subtotal:
      there is no flat part, so these members never get the bulk amount. */
  lemma MembershipDiscountIsProportional(membership: string, subtotal: real)
    requires membership == Gold || membership == Platinum
    ensures BaseDiscount(membership, subtotal) == subtotal * BaseDiscount(membership, 1.0)
  {
  }

  /** A membership label other than gold or platinum prices exactly like
      "none". */
  lemma OtherMembershipIsNone(t: Tables, inv: Invoice)
    requires t.Valid()
    requires inv.membership != Gold && inv.membership != Platinum
    ensures Pricing(t, Some(inv)) == Pricing(t, Some(inv.(membership := "none")))
  {
    var plain := inv.(membership := "none");
    assert "none" != Gold && "none" != Platinum;
    assert Validation(Some(inv)) == Validation(Some(plain));
    var subtotal := Subtotal(inv.items);
    assert BaseDiscount(inv.membership, subtotal) == BaseDiscount(plain.membership, subtotal);
    assert Discount(t, inv, subtotal) == Discount(t, plain, subtotal);
    assert Gross(t, inv) == Gross(t, plain);
    assert Warnings(t, inv) == Warnings(t, plain);
    SamePricing(t, inv, plain);
  }

  /** A recognised coupon adds its share of the subtotal on top of the base
      discount, raises no warning, and so lowers the gross amount by that
      share and by the tax on it. */
  lemma RecognisedCouponAddsOn(t: Tables, inv: Invoice)
    requires t.Valid()
    requires CouponEffectOf(t, inv.coupon).Recognised?
    ensures var subtotal := Subtotal(inv.items);
      var plain := inv.(coupon := None);
      var share := subtotal * CouponEffectOf(t, inv.coupon).rate;
      && Discount(t, inv, subtotal) == Discount(t, plain, subtotal) + share
      && Warnings(t, inv) == Warnings(t, plain)
      && Gross(t, inv) == Gross(t, plain) - share - Tax(t, inv.country, share)
  {
    var subtotal := Subtotal(inv.items);
    var plain := inv.(coupon := None);
    var share := subtotal * CouponEffectOf(t, inv.coupon).rate;
    var shipping := Shipping(t, inv.country, subtotal);
    var fee := FragileFee(inv.items);
    var d := Discount(t, plain, subtotal);
    assert Discount(t, inv, subtotal) == d + share;
    var tax := Tax(t, inv.country, subtotal - d);
    var shareTax := Tax(t, inv.country, share);
    TaxOfDifference(t, inv.country, subtotal - d, share);
    assert subtotal - d - share == subtotal - (d + share);
    GrossFromParts(t, inv, subtotal, shipping, fee, d + share, tax - shareTax);
    GrossFromParts(t, plain, subtotal, shipping, fee, d, tax);
    assert Warnings(t, inv) == Warnings(t, plain);
  }

  /** The tax on a difference is the difference of the taxes. */
  lemma TaxOfDifference(t: Tables, country: string, a: real, b: real)
    requires t.Valid()
    ensures Tax(t, country, a - b) == Tax(t, country, a) - Tax(t, country, b)
  {
    var rate := TaxRate(t, country);
    assert (a - b) * rate == a * rate - b * rate;
  }

  /** A coupon that is present but not recognised leaves the total as if
      there were no coupon and puts "Unknown coupon" first among the
      warnings. */
  lemma UnknownCouponOnlyWarns(t: Tables, inv: Invoice)
    requires t.Valid()
    requires CouponEffectOf(t, inv.coupon) == Unrecognised
    ensures Pricing(t, Some(inv)) ==
      match Pricing(t, Some(inv.(coupon := None)))
      case Err(e) => Err(e)
      case Ok(p) => Ok(Priced(p.total, [UnknownCoupon] + p.warnings))
  {
    var plain := inv.(coupon := None);
    assert Validation(Some(inv)) == Validation(Some(plain));
    var subtotal := Subtotal(inv.items);
    var discount := Discount(t, plain, subtotal);
    assert Discount(t, inv, subtotal) == discount;
    var shipping := Shipping(t, inv.country, subtotal);
    var fee := FragileFee(inv.items);
    var tax := Tax(t, inv.country, subtotal - discount);
    GrossFromParts(t, inv, subtotal, shipping, fee, discount, tax);
    GrossFromParts(t, plain, subtotal, shipping, fee, discount, tax);
    assert Warnings(t, inv) == [UnknownCoupon] + Warnings(t, plain);
  }

  /** The coupon code is looked up with the whitespace around it removed:
      padding a code that neither starts nor ends with whitespace changes
      nothing. */
  lemma CouponCodeIsStripped(t: Tables, before: string, code: string, after: string)
    requires AllSpace(before) && AllSpace(after)
    requires code != [] && !IsSpace(code[0]) && !IsSpace(code[|code| - 1])
    ensures CouponEffectOf(t, Some(before + code + after)) == CouponEffectOf(t, Some(code))
  {
    StripExact(before, code, after);
    StripExact([], code, []);
    assert [] + code + [] == code;
  }

  /** A coupon made only of whitespace is not ignored like an empty one: it
      strips to the empty code, and unless the empty code has a rate it is
      reported as unknown. */
  lemma BlankCouponIsUnknown(t: Tables, code: string)
    requires code != [] && AllSpace(code)
    requires "" !in t.couponRate
    ensures CouponEffectOf(t, Some(code)) == Unrecognised
  {
    StripShape(code);
  }

  /** Absent and empty coupons are ignored, codes are matched
      case-sensitively, and a zero rate counts as unknown. */
  lemma CouponLookupExamples()
    ensures CouponEffectOf(Configured, None) == NoCoupon
    ensures CouponEffectOf(Configured, Some("")) == NoCoupon
    ensures CouponEffectOf(Configured, Some("WELCOME10")) == Recognised(0.10)
    ensures CouponEffectOf(Configured, Some("welcome10")) == Unrecognised
    ensures CouponEffectOf(Configured.(couponRate := map["FREE" := 0.0]), Some("FREE")) == Unrecognised
  {
    StripExact("", "WELCOME10", "");
    assert "" + "WELCOME10" + "" == "WELCOME10";
    StripExact("", "welcome10", "");
    assert "" + "welcome10" + "" == "welcome10";
    assert "welcome10"[0] != "WELCOME10"[0];
    assert |"welcome10"| != |"VIP20"| && |"welcome10"| != |"STUDENT5"|;
    StripExact("", "FREE", "");
    assert "" + "FREE" + "" == "FREE";
  }

  // ---------------------------------------------------------------------
  // Country, tax and total

  /** Tiers are not sorted before the scan: the configured US tiers give 15
      below 100, but listed the other way round they would give 8. */
  lemma TierOrderMatters()
    ensures Shipping(Configured, "US", 50.0) == 15.0
    ensures TierCost([Tier(300.0, 8.0), Tier(100.0, 15.0)], 50.0) == 8.0
  {
    var tiers := [Tier(100.0, 15.0), Tier(300.0, 8.0)];
    assert FirstFitting(tiers, 0, 50.0);
    TierCostIsFirstFitting(tiers, 50.0);
  }

  /** A country without shipping tiers and without a tax rate prices exactly
      like the fallback row. */
  lemma UnknownCountryIsDefault(t: Tables, inv: Invoice)
    requires t.Valid()
    requires inv.country !in t.shipping && inv.country !in t.taxRate
    ensures Pricing(t, Some(inv)) == Pricing(t, Some(inv.(country := Default)))
  {
    var fallback := inv.(country := Default);
    assert Validation(Some(inv)) == Validation(Some(fallback));
    var subtotal := Subtotal(inv.items);
    assert Discount(t, inv, subtotal) == Discount(t, fallback, subtotal);
    assert Shipping(t, inv.country, subtotal) == Shipping(t, Default, subtotal);
    assert TaxRate(t, inv.country) == TaxRate(t, Default);
    assert Gross(t, inv) == Gross(t, fallback);
    assert Warnings(t, inv) == Warnings(t, fallback);
    SamePricing(t, inv, fallback);
  }

  /** Only the discounted subtotal is taxed: shipping and the fragile fee
      are added untaxed. */
  lemma TaxExcludesShippingAndFee(t: Tables, inv: Invoice)
    requires t.Valid()
    ensures var subtotal := Subtotal(inv.items);
      var taxed := subtotal - Discount(t, inv, subtotal);
      Quote(t, inv).total
        == Max0(taxed * (1.0 + TaxRate(t, inv.country)) + Shipping(t, inv.country, subtotal) + FragileFee(inv.items))
  {
    var subtotal := Subtotal(inv.items);
    var taxed := subtotal - Discount(t, inv, subtotal);
    var rate := TaxRate(t, inv.country);
    assert taxed * (1.0 + rate) == taxed + taxed * rate;
  }

  /** Without a recognised coupon, on tables with non-negative tax rates and
      shipping costs, a valid invoice is never clamped: the base discount
      never exceeds the subtotal. */
  lemma ClampOnlyWithCoupon(t: Tables, inv: Invoice)
    requires t.Valid()
    requires AllItemsValid(inv.items)
    requires !CouponEffectOf(t, inv.coupon).Recognised?
    requires TaxRate(t, inv.country) >= 0.0
    requires forall k :: 0 <= k < |TiersFor(t, inv.country)| ==> TiersFor(t, inv.country)[k].cost >= 0.0
    ensures Quote(t, inv).total == Gross(t, inv) >= 0.0
  {
    var subtotal := Subtotal(inv.items);
    var shipping := Shipping(t, inv.country, subtotal);
    var fee := FragileFee(inv.items);
    var discount := Discount(t, inv, subtotal);
    var tax := Tax(t, inv.country, subtotal - discount);
    ItemSumsBounds(inv.items);
    TierCostIsFirstFitting(TiersFor(t, inv.country), subtotal);
    DiscountWithinSubtotal(t, inv, subtotal);
    TaxNonNegative(t, inv.country, subtotal - discount);
    GrossFromParts(t, inv, subtotal, shipping, fee, discount, tax);
    assert shipping >= 0.0;
    assert fee >= 0.0;
    assert tax >= 0.0;
    assert subtotal - discount >= 0.0;
    assert Gross(t, inv) >= 0.0;
    assert Max0(Gross(t, inv)) == Gross(t, inv);
  }

  /** A non-negative amount taxed at a non-negative rate gives a
      non-negative tax. */
  lemma TaxNonNegative(t: Tables, country: string, amount: real)
    requires t.Valid()
    requires amount >= 0.0 && TaxRate(t, country) >= 0.0
    ensures Tax(t, country, amount) >= 0.0
  {
    NonNegativeProduct(amount, TaxRate(t, country));
  }

  /** Without a recognised coupon the discount never exceeds a
      non-negative subtotal. */
  lemma DiscountWithinSubtotal(t: Tables, inv: Invoice, subtotal: real)
    requires subtotal >= 0.0
    requires !CouponEffectOf(t, inv.coupon).Recognised?
    ensures 0.0 <= Discount(t, inv, subtotal) <= subtotal
  {
    BaseDiscountBounded(inv.membership, subtotal);
  }

  /** The configured tables have non-negative rates and costs. */
  lemma ConfiguredTablesSane(country: string)
    ensures Configured.Valid()
    ensures TaxRate(Configured, country) >= 0.0
    ensures forall k :: 0 <= k < |TiersFor(Configured, country)| ==> TiersFor(Configured, country)[k].cost >= 0.0
  {
  }

  // ---------------------------------------------------------------------
  // Warnings

  /** At most two warnings, "Unknown coupon" exactly when a present coupon is
      not recognised, the upgrade advice exactly when a non-member's subtotal
      is above 10000, and the coupon warning always first. */
  lemma WarningsShape(t: Tables, inv: Invoice)
    requires t.Valid()
    ensures var w := Quote(t, inv).warnings;
      && |w| <= 2
      && (UnknownCoupon in w <==> CouponEffectOf(t, inv.coupon) == Unrecognised)
      && (UpgradeAdvice in w <==> NeedsUpgradeAdvice(inv.membership, Subtotal(inv.items)))
      && (UnknownCoupon in w ==> w[0] == UnknownCoupon)
  {
    assert UnknownCoupon[0] != UpgradeAdvice[0];
  }

  // ---------------------------------------------------------------------
  // The invoices of the test suite

  /** Two books at 100 shipped to TH: 200 + 60 shipping + 14 tax. */
  lemma BasicThaiInvoice()
    ensures Pricing(Configured, Some(Invoice("I-001", "C-001", "TH", "none", None,
      [LineItem("A", "book", 100.0, 2, false)]))) == Ok(Priced(274.0, []))
  {
    var items := [LineItem("A", "book", 100.0, 2, false)];
    assert items[1..] == [];
    assert Subtotal(items) == 200.0;
    assert FragileFee(items) == 0.0;
    assert "none" != Gold && "none" != Platinum;
  }

  /** A gold customer buying one item at 1000 shipped to the US: 30 off, no
      shipping above the last tier, 77.6 tax on 970. */
  lemma GoldUsInvoice()
    ensures Pricing(Configured, Some(Invoice("I-003", "C-001", "US", "gold", None,
      [LineItem("A", "book", 1000.0, 1, false)]))) == Ok(Priced(1047.6, []))
  {
    var items := [LineItem("A", "book", 1000.0, 1, false)];
    assert items[1..] == [];
    assert Subtotal(items) == 1000.0;
    assert FragileFee(items) == 0.0;
    var tiers := [Tier(100.0, 15.0), Tier(300.0, 8.0)];
    assert NoneFitting(tiers, 1000.0);
  }

  /** A quantity of zero is refused, naming the item. */
  lemma ZeroQuantityRejected(t: Tables)
    requires t.Valid()
    ensures Pricing(t, Some(Invoice("I-002", "C-001", "TH", "none", None,
      [LineItem("A", "book", 100.0, 0, false)]))) == Err(InvalidItem("A"))
  {
    InvalidItemRejectsInvoice(t, Invoice("I-002", "C-001", "TH", "none", None,
      [LineItem("A", "book", 100.0, 0, false)]), [], LineItem("A", "book", 100.0, 0, false), []);
  }
}
