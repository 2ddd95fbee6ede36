# Invoice pricing calculator

A Dafny model of the invoice pricing calculator `InvoiceService` in
`src/invoice_service.py`. It takes an invoice with a header (invoice id,
customer id, destination country, membership label, optional coupon code) and
a list of line items (sku, category, unit price, quantity, fragile flag). It
either refuses the invoice, or returns the total payable together with a list
of advisory warnings.

The calculator works in this order:

1. It validates the header, then the item list, then each item in turn.
2. It sums the subtotal and a fragile surcharge of 5 per unit.
3. It applies one base discount by membership: gold 3%, platinum 5%,
   otherwise a flat 20 above a subtotal of 3000.
4. It adds the coupon's share on top, or warns "Unknown coupon".
5. It looks up shipping on the undiscounted subtotal, using the first tier in
   listed order whose limit is above the subtotal.
6. It taxes the discounted subtotal at the country's rate.
7. It clamps the total at zero.
8. It advises non-members with a subtotal above 10000 to upgrade.

Files:

- `text.dfy` (module `Text`) models Python's `str.strip()`, which the coupon
  lookup uses, over the characters for which `str.isspace()` holds.
- `invoice_service.dfy` (module `InvoiceService`) holds:
  - the entities and the three read-only tables, passed to the calculator as
    one `Tables` value;
  - specification functions for every step;
  - the steps the source writes as loops or step-by-step updates, as methods:
    - `Validate` and `ShippingCost` are loops with early exit, proved against
      `Validation` and `Shipping`;
    - `ApplyDiscounts` and `ApplyCoupon` reassign the discount and append to
      the warning list;
    - `PriceValidated` and `ComputeTotal` run the whole pipeline, proved
      against `Quote` and `Pricing`.
- `invoice_properties.dfy` (module `InvoiceProperties`) holds lemmas relating
  several invoices or calls, and the three invoices of the test suite.

Money is an exact `real` and quantities are `int`. The calculator holds no
state that changes after construction, so it is modelled as functions over an
immutable `Tables` value. `ComputeTotal`'s result is pinned to `Pricing`, a
function of the tables and the invoice, so the same invoice always prices the
same way.

Mapping of Python details:

- A missing invoice is `Option.None`.
- A falsy coupon is `None` or the empty string.
- A falsy rate is `0.0`.
- `max(0, x)` is `Max0`.
- The exception `_validate` raises becomes `Err` carrying a `ValidationError`.
  The item case names the offending sku.

## Model

| member | source | states |
|---|---|---|
| Text.TrimStartShape | src/invoice_service.py:79 | the leading-whitespace trim returns a suffix of the code, cuts off only whitespace, and leaves no leading whitespace |
| Text.TrimEndShape | src/invoice_service.py:79 | the trailing-whitespace trim returns a prefix, cuts off only whitespace, and leaves no trailing whitespace |
| Text.StripShape | src/invoice_service.py:79 | `strip()` keeps a contiguous slice with only whitespace around it, and that slice neither starts nor ends with whitespace; the result is empty exactly when the code is all whitespace |
| Text.StripExact | src/invoice_service.py:79 | stripping any whitespace padding off a word that neither starts nor ends with whitespace gives back exactly that word |
| Text.StripIdempotent | src/invoice_service.py:79 | stripping twice is the same as stripping once |
| InvoiceService.FirstInvalidItemIsFirst | src/invoice_service.py:49-51 | the item scan finds nothing exactly when every item is valid; otherwise it finds an invalid item with only valid items before it |
| InvoiceService.ValidationCases | src/invoice_service.py:43-51 | validation passes exactly for a present invoice with both ids, some items and all items valid; a missing invoice or id is a header error; a valid header with no items is the empty-list error; otherwise the error names the sku of the first invalid item |
| InvoiceService.Validate | src/invoice_service.py:43-51 | the header check, the item-list check and the early-exit scan over the items give exactly the outcome `Validation` describes |
| InvoiceService.SumBounds | src/invoice_service.py:67-68 | a sum over the items of non-negative terms is non-negative, and a sum of zeros is zero |
| InvoiceService.ItemSumsBounds | src/invoice_service.py:67-68 | for valid items the subtotal and the fragile fee are non-negative; the fee is zero when no item is fragile |
| InvoiceService.TierCostIsFirstFitting | src/invoice_service.py:55-58 | shipping is the cost of the first tier, in listed order, whose limit is strictly above the subtotal; it is 0 when no tier is; it is non-negative when every tier cost is |
| InvoiceService.ShippingCost | src/invoice_service.py:53-58 | the scan over the country's tiers, or the DEFAULT tiers for an unknown country, returns exactly `Shipping` |
| InvoiceService.BaseDiscountBounded | src/invoice_service.py:70-76 | the single base discount is between 0 and any non-negative subtotal |
| InvoiceService.ApplyCoupon | src/invoice_service.py:78-83 | a truthy code is stripped and looked up; a non-zero rate adds subtotal × rate to the discount; anything else appends one "Unknown coupon" and leaves the discount unchanged |
| InvoiceService.ApplyDiscounts | src/invoice_service.py:70-83 | the base discount plus the coupon step give `Discount`, and the only warning raised is the coupon warning |
| InvoiceService.PricingCases | src/invoice_service.py:63-88 | pricing fails exactly when validation fails, and with its error; otherwise the total is non-negative, at least the gross amount, and equal to either 0 or the gross amount |
| InvoiceService.PriceValidated | src/invoice_service.py:67-93 | the step-by-step pipeline on a validated invoice produces exactly `Quote`: the clamped gross amount and the warnings in order |
| InvoiceService.ComputeTotal | src/invoice_service.py:63-93 | validation comes first and a failure produces no total; otherwise the result is the quote; the whole result is `Pricing`, so it is deterministic |
| InvoiceProperties.SumAppend | src/invoice_service.py:67-68 | a sum over two concatenated item lists is the sum of the two sums |
| InvoiceProperties.SumPermutation | src/invoice_service.py:67-68 | a sum over the items does not depend on their order |
| InvoiceProperties.PricingIgnoresItemOrder | src/invoice_service.py:63-93 | reordering the items of a valid invoice changes neither its total nor its warnings |
| InvoiceProperties.InvalidItemRejectsInvoice | src/invoice_service.py:49-51 | one bad item anywhere refuses the invoice whatever the other items are; with a valid header the error is an item error, and it names this item when all items before it are valid |
| InvoiceProperties.MembershipDiscountIsProportional | src/invoice_service.py:71-74 | the gold and platinum discounts are a pure percentage of the subtotal with no flat part, so these members never get the flat 20 |
| InvoiceProperties.OtherMembershipIsNone | src/invoice_service.py:70-91 | any membership label other than gold or platinum prices exactly like "none" |
| InvoiceProperties.RecognisedCouponAddsOn | src/invoice_service.py:78-81 | a recognised coupon adds subtotal × rate on top of the base discount and raises no warning, so the gross amount drops by that share plus the tax on it |
| InvoiceProperties.TaxOfDifference | src/invoice_service.py:60-61 | the tax on a difference is the difference of the taxes |
| InvoiceProperties.UnknownCouponOnlyWarns | src/invoice_service.py:78-83 | an unrecognised coupon leaves the result as if there were no coupon, except that "Unknown coupon" is put first among the warnings |
| InvoiceProperties.CouponCodeIsStripped | src/invoice_service.py:79 | padding a non-empty code that neither starts nor ends with whitespace does not change how it is looked up |
| InvoiceProperties.BlankCouponIsUnknown | src/invoice_service.py:78-83 | a non-empty, all-whitespace coupon is not ignored: it is reported as unknown unless the empty code has a rate |
| InvoiceProperties.CouponLookupExamples | src/invoice_service.py:78-80 | with the configured coupon table: absent and empty coupons are ignored; "WELCOME10" gets 0.10 but "welcome10" is unknown, so matching is case-sensitive; a code with a 0.0 rate is unknown |
| InvoiceProperties.TierOrderMatters | src/invoice_service.py:53-57 | tiers are scanned in listed order without sorting: with the configured US tiers, a subtotal of 50 ships for 15, and the same tiers in reverse order would give 8 |
| InvoiceProperties.UnknownCountryIsDefault | src/invoice_service.py:53-61 | a country with neither shipping tiers nor a tax rate prices exactly like "DEFAULT" |
| InvoiceProperties.TaxExcludesShippingAndFee | src/invoice_service.py:85-88 | the total is max(0, taxed amount × (1 + rate) + shipping + fragile fee), where the taxed amount is subtotal − discount, so shipping and the fee are never taxed |
| InvoiceProperties.ClampOnlyWithCoupon | src/invoice_service.py:70-88 | with no recognised coupon, valid items, and non-negative rates and tier costs, the gross amount is non-negative and the clamp does nothing |
| InvoiceProperties.TaxNonNegative | src/invoice_service.py:60-61 | a non-negative amount taxed at a non-negative rate gives a non-negative tax |
| InvoiceProperties.DiscountWithinSubtotal | src/invoice_service.py:70-83 | without a recognised coupon the discount stays within a non-negative subtotal |
| InvoiceProperties.ConfiguredTablesSane | src/invoice_service.py:22-34 | the configured tables have DEFAULT rows, non-negative tax rates and non-negative tier costs |
| InvoiceProperties.WarningsShape | src/invoice_service.py:78-91 | there are at most two warnings; "Unknown coupon" appears exactly for an unrecognised coupon; the upgrade advice appears exactly when the subtotal is above 10000 and the membership is neither gold nor platinum; the coupon warning is always first |
| InvoiceProperties.BasicThaiInvoice | tests/test_invoice_service.py:4-16 | two books at 100 shipped to TH cost 200 + 60 shipping + 14 tax = 274, with no warnings |
| InvoiceProperties.GoldUsInvoice | tests/test_invoice_service.py:31-42 | a gold customer's 1000 order to the US costs 1000 − 30 + 0 shipping + 77.6 tax = 1047.6, with no warnings |
| InvoiceProperties.ZeroQuantityRejected | tests/test_invoice_service.py:18-29 | an item with quantity 0 refuses the invoice, naming sku "A" |

## Left out

- Floating-point rounding: amounts are exact reals, so results such as 1047.6 are exact rather than the nearest double.
- The type and message of the raised `ValueError`: the model returns a `ValidationError` case that carries the offending sku.
- Whether `max(0, …)` returns an int or a float: the model has one numeric type.
- The dataclass machinery, the typing imports and the default `fragile=False`: the model's constructors take every field explicitly, and `category` is carried but never read.
- A missing "DEFAULT" row: Python evaluates `SHIPPING_RULES["DEFAULT"]` and `TAX_RATE["DEFAULT"]` on every lookup and would raise `KeyError`. The model requires `Tables.Valid()` (both DEFAULT rows present) of its callers.
- Python truthiness of non-string ids: the ids are typed `str`, so "falsy" is modelled as the empty string.
- The test harness's `isinstance` checks and `pytest.raises` plumbing: the tests' behaviour is stated by the three example lemmas.
