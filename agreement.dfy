/** The server-side block and the checkout widget compute the same
    quantities twice, connected by the provider's payload. These lemmas
    say where the two agree and where they differ. */
module Agreement {
  import opened Wrappers
  import Php
  import opened StoreConfig
  import Indicator
  import CheckoutConfigProvider
  import ShippingIndicator

  /** The values a yes/no field of the store configuration holds: unset,
      "0" or "1". */
  predicate IsYesNo(v: Option<string>) {
    v == None || v == Some("0") || v == Some("1")
  }

  /** Page totals that describe the same cart as the server's quote: the
      discounted subtotal is the subtotal plus the (negative) discount. */
  predicate SameCart(q: Indicator.Quote, segments: ShippingIndicator.Segments) {
    && segments.grandTotal == q.grandTotal
    && segments.subtotal == q.subtotal
    && q.subtotalWithDiscount == segments.subtotal + segments.discountAmount
  }

  /** A yes/no flag passed through raw reads alike on both sides: PHP
      truthiness on the server, `== 1` on the page. */
  lemma FlagReadsAlike(v: Option<string>)
    requires IsYesNo(v)
    ensures Php.Truthy(v) <==> ShippingIndicator.LooseEqualsOne(Some(CheckoutConfigProvider.Raw(v)))
  {
  }

  /** Outside the yes/no values the two readings can part: "2" is truthy
      for the server but not equal to 1 for the page. */
  lemma FlagReadsDifferOutsideYesNo()
    ensures Php.Truthy(Some("2"))
    ensures !ShippingIndicator.LooseEqualsOne(Some(CheckoutConfigProvider.Raw(Some("2"))))
  {
  }

  /** The page shows the widget exactly when the server's helper says the
      module is enabled. */
  lemma VisibleIffEnabled(s: Settings)
    ensures ShippingIndicator.IsVisible(CheckoutConfigProvider.Payload(s)) == Some(CheckoutConfigProvider.JBool(Indicator.IsModuleEnable(s)))
  {
  }

  /** An enabled module sends the server's threshold, whichever source it
      comes from; a disabled one sends none. */
  lemma PayloadThresholdIsServerThreshold(s: Settings)
    ensures IsEnable(s) ==> ShippingIndicator.Threshold(CheckoutConfigProvider.Payload(s)) == Some(Indicator.FreeShippingMinValue(s))
    ensures !IsEnable(s) ==> ShippingIndicator.Threshold(CheckoutConfigProvider.Payload(s)).None?
  {
  }

  /** For an enabled module and the same cart, the page's current total is
      the server's. */
  lemma CurrentTotalsAgree(s: Settings, q: Indicator.Quote, segments: ShippingIndicator.Segments)
    requires IsEnable(s) && IsYesNo(s.useOrderSubtotal) && IsYesNo(s.orderSubtotalIncludesDiscount)
    requires SameCart(q, segments)
    ensures ShippingIndicator.CurrentTotal(CheckoutConfigProvider.Payload(s), Some(segments)) == Indicator.CurrentTotal(s, q)
  {
  }

  /** The page and the server agree on eligibility for every setting of the
      enabled flag: a disabled module sends no threshold, and nothing
      compares as reaching a missing threshold. */
  lemma EligibilityAgrees(s: Settings, q: Indicator.Quote, segments: ShippingIndicator.Segments)
    requires IsYesNo(s.useOrderSubtotal) && IsYesNo(s.orderSubtotalIncludesDiscount)
    requires SameCart(q, segments)
    ensures ShippingIndicator.IsFreeShipping(CheckoutConfigProvider.Payload(s), Some(segments)) <==>
              Indicator.IsOrderEligibleForFreeShipping(s, q)
  {
  }

  /** The page's remaining amount is the server's difference clamped at 0. */
  lemma RemainingIsClampedDifference(s: Settings, q: Indicator.Quote, segments: ShippingIndicator.Segments)
    requires IsEnable(s) && IsYesNo(s.useOrderSubtotal) && IsYesNo(s.orderSubtotalIncludesDiscount)
    requires SameCart(q, segments)
    ensures var d := Indicator.FreeShippingAmountDifference(s, q);
            ShippingIndicator.RemainingAmount(CheckoutConfigProvider.Payload(s), Some(segments)) == if d > 0.0 then d else 0.0
  {
  }

  /** With a positive threshold the page's bar width is the server's
      completion rate clamped into [0, 100]. */
  lemma BarWidthIsClampedRate(s: Settings, q: Indicator.Quote, segments: ShippingIndicator.Segments)
    requires IsEnable(s) && IsYesNo(s.useOrderSubtotal) && IsYesNo(s.orderSubtotalIncludesDiscount)
    requires SameCart(q, segments)
    requires Indicator.FreeShippingMinValue(s) > 0.0
    ensures ShippingIndicator.BarWidth(CheckoutConfigProvider.Payload(s), Some(segments)) ==
              ShippingIndicator.Percent(ShippingIndicator.Clamp(Indicator.FreeShippingCompletionRate(s, q)))
  {
  }

  /** With a zero threshold the two part: the server reports 0 % while the
      page fills the bar for any positive total. */
  lemma ZeroThresholdRateDiffers(s: Settings, q: Indicator.Quote, segments: ShippingIndicator.Segments)
    requires IsEnable(s) && IsYesNo(s.useOrderSubtotal) && IsYesNo(s.orderSubtotalIncludesDiscount)
    requires SameCart(q, segments)
    requires Indicator.FreeShippingMinValue(s) == 0.0 && Indicator.CurrentTotal(s, q) > 0.0
    ensures Indicator.FreeShippingCompletionRate(s, q) == 0.0
    ensures ShippingIndicator.BarWidth(CheckoutConfigProvider.Payload(s), Some(segments)) == ShippingIndicator.Percent(100.0)
  {
  }

  /** The background colour falls back to the same default on both sides;
      the bar and text colours do not (the server uses "red", the payload
      "#00a651" and "#ffffff"). */
  lemma ColourDefaults(s: Settings)
    requires IsEnable(s)
    ensures CheckoutConfigProvider.Payload(s)["bgColor"] == CheckoutConfigProvider.JStr(Indicator.MessageBackground(s))
    ensures s.progressBarColor.None? ==>
              CheckoutConfigProvider.Payload(s)["barColor"] != CheckoutConfigProvider.JStr(Indicator.ProgressBarColor(s))
    ensures s.messageTextColor.None? ==>
              CheckoutConfigProvider.Payload(s)["textColor"] != CheckoutConfigProvider.JStr(Indicator.MessageTextColor(s))
  {
  }
}
