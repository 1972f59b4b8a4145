# Free-shipping indicator: eligibility engine

A Dafny model of the free-shipping indicator of a Magento 2 store module.
The module tells a shopper how far the cart is from free shipping. It
computes this twice:

- the server-side cart block (`Indicator`) renders the first snapshot;
- the checkout page's widget (`ShippingIndicator`) recomputes the same
  values whenever the cart totals change.

A payload built on the server (`CheckoutConfigProvider`) connects the two.
The model covers all three as pure functions of their inputs:

- the raw store configuration (`StoreConfig.Settings`, one field per
  configuration path);
- the quote's totals (`Indicator.Quote`);
- the page's totals segments (`ShippingIndicator.Segments`).

The module `Agreement` proves where the two computations agree and where
they differ.

Modules and files:

- `wrappers.dfy`: `Option`.
- `php.dfy`: PHP truthiness (`null`, `""` and `"0"` are falsy), the short
  ternary `?:` and the `(float)` cast.
- `store_config.dfy`: the raw settings, and the helper's `(bool)`/`(float)`
  views of them that the server block reads.
- `indicator.dfy`: the server block. It picks the threshold and the current
  total. It decides eligibility. It derives the unclamped difference and
  the unclamped completion rate. It gives the display strings with their
  fallbacks.
- `checkout_config_provider.dfy`: the payload. A disabled module sends
  `{enabled: false}` only. An enabled one sends eleven keys, with its own
  colour defaults.
- `shipping_indicator.dfy`: the widget. It computes the current total,
  eligibility, the remaining amount clamped at 0, and the bar width
  clamped into [0, 100].
- `agreement.dfy`: lemmas relating the server block, the payload and the
  widget.

The model keeps these behaviours of the code:

- A disabled module still has a threshold: the module's own minimum, not 0.
- The current total ignores the enabled flag.
- No item count is consulted anywhere.
- On the server, neither the difference nor the completion rate is clamped.

Amounts are `real`. The engine only compares, subtracts, divides and
clamps them.

The widget's divisions can produce NaN or an infinity. The model keeps
those cases where they can happen:

- A disabled payload has no threshold. The widget then reads NaN: it is
  never eligible, its remaining amount is 0 and its bar width is NaN.
- A threshold of 0 divides by zero. The clamp turns the resulting infinity
  into 100 or 0. A zero total gives NaN.

## Model

| member | source | states |
|---|---|---|
| `Php.Elvis` | Block/Cart/Indicator.php:185 | `v ?: d` is `v` when `v` is truthy (not null, "" or "0") and `d` otherwise; with a truthy fallback the result is always truthy |
| `Php.FloatCast` | Model/CheckoutConfigProvider.php:33 | an absent value casts to 0.0, a present number to itself |
| `Indicator.FreeShippingMethodMinValue` | Block/Cart/Indicator.php:74-77 | the core carrier's configured subtotal, 0.0 when it has none |
| `Indicator.FreeShippingMinValue` | Block/Cart/Indicator.php:61-67 | the threshold is the core carrier's subtotal iff enabled and use-core; otherwise the module's minimum, also when disabled |
| `Indicator.CurrentTotal` | Block/Cart/Indicator.php:91-104 | grand total without use-subtotal; else discounted subtotal with include-discount; else subtotal |
| `Indicator.CurrentTotalIgnoresEnable` | Block/Cart/Indicator.php:91-104 | the enabled and use-core flags never change the current total |
| `Indicator.IsOrderEligibleForFreeShipping` | Block/Cart/Indicator.php:116-129 | eligible iff enabled and current total >= threshold; the core-config branch agrees with the generic one; equality counts |
| `Indicator.EligibleCartExistsIffEnabled` | Block/Cart/Indicator.php:116-129 | some quote is eligible iff the module is enabled (a quote whose totals equal the threshold qualifies) |
| `Indicator.DisabledNeverEligible` | Block/Cart/Indicator.php:116-120 | a disabled module is never eligible, whatever the quote |
| `Indicator.FreeShippingAmountDifference` | Block/Cart/Indicator.php:150-153 | difference + current total = threshold (no clamp); when enabled, difference <= 0 iff eligible |
| `Indicator.FreeShippingCompletionRate` | Block/Cart/Indicator.php:162-166 | 0 for a threshold <= 0; otherwise rate × threshold = total × 100 (no upper clamp); when enabled, rate >= 100 iff eligible |
| `Indicator.IsModuleEnable` | Block/Cart/Indicator.php:173-176 | exactly the helper's enabled flag |
| `Indicator.FontSize` | Block/Cart/Indicator.php:183-186 | configured value when truthy, else "14"; never falsy |
| `Indicator.TextMessage` | Block/Cart/Indicator.php:193-196 | configured value when truthy, else "To get FREE SHIPPING, add "; never falsy |
| `Indicator.MessageBackground` | Block/Cart/Indicator.php:203-206 | configured value when truthy, else "#ff5501"; never falsy |
| `Indicator.ProgressBarColor` | Block/Cart/Indicator.php:213-216 | configured value when truthy, else "red"; never falsy |
| `Indicator.CustomCss` | Block/Cart/Indicator.php:223-226 | configured value when truthy, else "" (so a configured "0" is dropped) |
| `Indicator.MessageTextColor` | Block/Cart/Indicator.php:233-236 | configured value when truthy, else "red"; never falsy |
| `Indicator.EligibleTextMessage` | Block/Cart/Indicator.php:243-246 | configured value when truthy, else "Your order is eligible for FREE SHIPPING."; never falsy |
| `CheckoutConfigProvider.GetConfig` | Model/CheckoutConfigProvider.php:16-45 | one outer key "shipIndicator"; a falsy is_enable gives only `enabled: false`; otherwise `enabled: true` and exactly the eleven payload keys |
| `CheckoutConfigProvider.Raw` | Model/CheckoutConfigProvider.php:34-38 | a raw value passes through unchanged, null as null |
| `CheckoutConfigProvider.EnabledPayloadHasElevenKeys` | Model/CheckoutConfigProvider.php:30-43 | an enabled payload has exactly 11 keys |
| `CheckoutConfigProvider.EnabledKeysCount` | Model/CheckoutConfigProvider.php:31-43 | the eleven key names are pairwise distinct |
| `CheckoutConfigProvider.ThresholdChoice` | Model/CheckoutConfigProvider.php:25-33 | threshold is the float cast of the core subtotal when use-core is truthy, else of the module minimum; absent values send 0.0 |
| `CheckoutConfigProvider.DisplayValues` | Model/CheckoutConfigProvider.php:34-42 | text, background and bar colours fall back to "#ffffff", "#ff5501", "#00a651"; the two flags and the other display values pass through raw |
| `ShippingIndicator.LooseEqualsOne` | view/frontend/web/js/view/checkout/shipping-indicator.js:22-24 | `v == 1` holds exactly for `true`, the number 1 and the string "1"; undefined and null never |
| `ShippingIndicator.Threshold` | view/frontend/web/js/view/checkout/shipping-indicator.js:14 | a numeric threshold reads as itself, null as 0; a missing key (or a string) reads as NaN |
| `ShippingIndicator.IsVisible` | view/frontend/web/js/view/checkout/shipping-indicator.js:16 | returns the payload's `enabled` unchanged, undefined when absent |
| `ShippingIndicator.CurrentTotal` | view/frontend/web/js/view/checkout/shipping-indicator.js:18-31 | 0 without totals; with useSubtotal == 1 the subtotal plus the discount when includeDiscount == 1 (skipping a zero discount changes nothing); else the grand total |
| `ShippingIndicator.IsFreeShipping` | view/frontend/web/js/view/checkout/shipping-indicator.js:33 | holds iff current total >= threshold (equality counts); never against a missing threshold |
| `ShippingIndicator.FreeCartExistsIffThreshold` | view/frontend/web/js/view/checkout/shipping-indicator.js:33 | some cart totals ship free iff the payload carries a threshold |
| `ShippingIndicator.RemainingAmount` | view/frontend/web/js/view/checkout/shipping-indicator.js:35-38 | never negative; 0 iff free shipping (given a threshold); otherwise threshold − total |
| `ShippingIndicator.Clamp` | view/frontend/web/js/view/checkout/shipping-indicator.js:42 | result in [0, 100]; identity inside; 100 iff p >= 100; 0 iff p <= 0 |
| `ShippingIndicator.ReachesHundred` | view/frontend/web/js/view/checkout/shipping-indicator.js:41-42 | for a positive threshold the percentage reaches 100 iff the total reaches the threshold |
| `ShippingIndicator.BarWidth` | view/frontend/web/js/view/checkout/shipping-indicator.js:40-43 | for a non-zero threshold, total/threshold·100 clamped into [0, 100]; for a positive threshold, total·100 = width·threshold below the threshold, 0 for a negative total, 100 iff free shipping; a zero threshold gives 100 for a positive total, NaN for a zero one; a missing threshold gives NaN |
| `Agreement.FlagReadsAlike` | view/frontend/web/js/view/checkout/shipping-indicator.js:22-25 | a yes/no flag (unset, "0", "1") is truthy on the server iff it equals 1 on the page |
| `Agreement.FlagReadsDifferOutsideYesNo` | view/frontend/web/js/view/checkout/shipping-indicator.js:22 | outside yes/no values the readings differ ("2") |
| `Agreement.VisibleIffEnabled` | view/frontend/web/js/view/checkout/shipping-indicator.js:16 | the widget is visible exactly when the server block's module is enabled |
| `Agreement.PayloadThresholdIsServerThreshold` | Model/CheckoutConfigProvider.php:25-33 | an enabled payload's threshold is the server block's threshold; a disabled payload has none |
| `Agreement.CurrentTotalsAgree` | view/frontend/web/js/view/checkout/shipping-indicator.js:18-31 | for an enabled module and the same cart, the page's current total is the server's |
| `Agreement.EligibilityAgrees` | view/frontend/web/js/view/checkout/shipping-indicator.js:33 | page and server agree on eligibility, enabled or not |
| `Agreement.RemainingIsClampedDifference` | view/frontend/web/js/view/checkout/shipping-indicator.js:35-37 | page remaining = max(0, server difference) |
| `Agreement.BarWidthIsClampedRate` | view/frontend/web/js/view/checkout/shipping-indicator.js:40-42 | for a positive threshold, page bar width = server rate clamped into [0, 100] |
| `Agreement.ZeroThresholdRateDiffers` | Block/Cart/Indicator.php:162-166 | with a zero threshold and a positive total the server reports 0 % while the page shows 100 % |
| `Agreement.ColourDefaults` | Model/CheckoutConfigProvider.php:39-41 | the background default agrees with the server's "#ff5501"; bar and text defaults differ from the server's "red" |

## Left out

- Helper/Data.php is not modelled as a component. Its `(bool)` and `(float)` casts are the functions of `StoreConfig`.
- Amount settings are modelled as absent or already a number. PHP's `(float)` of a non-numeric string is not modelled.
- The checkout session and quote lookup, and the exceptions they may throw: the quote is a parameter.
- Currency formatting on both sides (`getFormattedPrice`, `priceUtils.formatPrice`) and the `'%'` suffix of the bar width.
- Block/Colorpicker.php: an admin colour-picker renderer with no decision logic.
- The constructors, which only store collaborators.
- Knockout/uiComponent reactivity and the `window.checkoutConfig` global: the payload is a parameter of each widget function.
- `parseFloat` of the totals segments: segments are already numbers. An undefined or non-numeric segment (NaN) is not modelled.
- Floating-point rounding: amounts are exact reals.
- The agreement lemmas assume the quote's discounted subtotal equals the page's subtotal plus its (negative) discount amount (`Agreement.SameCart`). How the platform fills these totals is not modelled.
- ShippingIndicator.LooseEqualsOne: among strings only "1" is taken as equal to 1. Other spellings that JavaScript also treats as 1 ("01", " 1", "1.0") are not modelled. The store's yes/no fields only hold "0" and "1".
- ShippingIndicator.Threshold: a string threshold is not converted to a number. The payload never holds one at that key.
