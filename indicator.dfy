/** The server-side free-shipping indicator block: which threshold applies,
    which cart total is compared with it, whether the order is eligible,
    how much is still missing, how far along the progress bar is, and the
    display strings with their fixed fallbacks. Every operation is a pure
    function of the store settings and the cart's quote. */
module Indicator {
  import opened Wrappers
  import Php
  import opened StoreConfig

  /** The totals of the checkout session's quote. */
  datatype Quote = Quote(grandTotal: real, subtotal: real, subtotalWithDiscount: real)

  const DefaultFontSize: string := "14"
  const DefaultTextMessage: string := "To get FREE SHIPPING, add "
  const DefaultMessageBackground: string := "#ff5501"
  const DefaultProgressBarColor: string := "red"
  const DefaultCustomCss: string := ""
  const DefaultMessageTextColor: string := "red"
  const DefaultEligibleTextMessage: string := "Your order is eligible for FREE SHIPPING."

  /** The subtotal configured for the core free-shipping carrier; 0.0 when
      the carrier has none. */
  function FreeShippingMethodMinValue(s: Settings): (r: real)
    ensures s.freeShippingSubtotal.None? ==> r == 0.0
    ensures s.freeShippingSubtotal.Some? ==> r == s.freeShippingSubtotal.value
  {
    CoreFreeShippingSubtotal(s)
  }

  /** The threshold: the core carrier's subtotal exactly when the module is
      enabled and told to use it; otherwise the module's own minimum, even
      when the module is disabled (it is not forced to 0). */
  function FreeShippingMinValue(s: Settings): (r: real)
    ensures IsEnable(s) && CoreShippingConfig(s) ==> r == Php.FloatCast(s.freeShippingSubtotal)
    ensures !IsEnable(s) || !CoreShippingConfig(s) ==> r == Php.FloatCast(s.orderMinTotal)
  {
    if IsEnable(s) && CoreShippingConfig(s) then FreeShippingMethodMinValue(s)
    else OrderMinTotal(s)
  }

  /** The cart total compared with the threshold: the grand total unless
      the subtotal is asked for, then the discounted or the plain subtotal.
      The enabled flag is not consulted. */
  function CurrentTotal(s: Settings, q: Quote): (r: real)
    ensures !OrderSubtotal(s) ==> r == q.grandTotal
    ensures OrderSubtotal(s) && OrderSubtotalWithDiscount(s) ==> r == q.subtotalWithDiscount
    ensures OrderSubtotal(s) && !OrderSubtotalWithDiscount(s) ==> r == q.subtotal
  {
    if !OrderSubtotal(s) then q.grandTotal
    else if OrderSubtotalWithDiscount(s) then q.subtotalWithDiscount
    else q.subtotal
  }

  /** Eligibility. When the core carrier's threshold is in use, the source
      compares against it directly; the contract says that both branches
      amount to comparing with the threshold, equality included. */
  predicate IsOrderEligibleForFreeShipping(s: Settings, q: Quote)
    ensures IsOrderEligibleForFreeShipping(s, q) <==>
              IsEnable(s) && CurrentTotal(s, q) >= FreeShippingMinValue(s)
  {
    if !IsEnable(s) then false
    else
      var currentTotal := CurrentTotal(s, q);
      if CoreShippingConfig(s) then currentTotal >= FreeShippingMethodMinValue(s)
      else currentTotal >= FreeShippingMinValue(s)
  }

  /** The amount still missing, not clamped: negative once the threshold
      is passed. */
  function FreeShippingAmountDifference(s: Settings, q: Quote): (r: real)
    ensures r + CurrentTotal(s, q) == FreeShippingMinValue(s)
    ensures IsEnable(s) ==> (r <= 0.0 <==> IsOrderEligibleForFreeShipping(s, q))
  {
    FreeShippingMinValue(s) - CurrentTotal(s, q)
  }

  /** Progress towards the threshold in percent, not clamped above 100;
      0 when the threshold is not positive. */
  function FreeShippingCompletionRate(s: Settings, q: Quote): (r: real)
    ensures FreeShippingMinValue(s) <= 0.0 ==> r == 0.0
    ensures FreeShippingMinValue(s) > 0.0 ==> r * FreeShippingMinValue(s) == CurrentTotal(s, q) * 100.0
    ensures FreeShippingMinValue(s) > 0.0 && IsEnable(s) ==>
              (r >= 100.0 <==> IsOrderEligibleForFreeShipping(s, q))
  {
    var minValue := FreeShippingMinValue(s);
    if minValue > 0.0 then (CurrentTotal(s, q) / minValue) * 100.0 else 0.0
  }

  predicate IsModuleEnable(s: Settings)
    ensures IsModuleEnable(s) <==> Php.Truthy(s.isEnable)
  {
    IsEnable(s)
  }

  function FontSize(s: Settings): (r: string)
    ensures Php.Truthy(s.fontSize) ==> r == s.fontSize.value
    ensures !Php.Truthy(s.fontSize) ==> r == DefaultFontSize
    ensures Php.Truthy(Some(r))
  {
    Php.Elvis(s.fontSize, DefaultFontSize)
  }

  function TextMessage(s: Settings): (r: string)
    ensures Php.Truthy(s.textMessage) ==> r == s.textMessage.value
    ensures !Php.Truthy(s.textMessage) ==> r == DefaultTextMessage
    ensures Php.Truthy(Some(r))
  {
    Php.Elvis(s.textMessage, DefaultTextMessage)
  }

  function MessageBackground(s: Settings): (r: string)
    ensures Php.Truthy(s.messageBackground) ==> r == s.messageBackground.value
    ensures !Php.Truthy(s.messageBackground) ==> r == DefaultMessageBackground
    ensures Php.Truthy(Some(r))
  {
    Php.Elvis(s.messageBackground, DefaultMessageBackground)
  }

  function ProgressBarColor(s: Settings): (r: string)
    ensures Php.Truthy(s.progressBarColor) ==> r == s.progressBarColor.value
    ensures !Php.Truthy(s.progressBarColor) ==> r == DefaultProgressBarColor
    ensures Php.Truthy(Some(r))
  {
    Php.Elvis(s.progressBarColor, DefaultProgressBarColor)
  }

  /** Custom CSS falls back to the empty string, so a configured "0" is
      dropped as well. */
  function CustomCss(s: Settings): (r: string)
    ensures Php.Truthy(s.customCss) ==> r == s.customCss.value
    ensures !Php.Truthy(s.customCss) ==> r == ""
  {
    Php.Elvis(s.customCss, DefaultCustomCss)
  }

  function MessageTextColor(s: Settings): (r: string)
    ensures Php.Truthy(s.messageTextColor) ==> r == s.messageTextColor.value
    ensures !Php.Truthy(s.messageTextColor) ==> r == DefaultMessageTextColor
    ensures Php.Truthy(Some(r))
  {
    Php.Elvis(s.messageTextColor, DefaultMessageTextColor)
  }

  function EligibleTextMessage(s: Settings): (r: string)
    ensures Php.Truthy(s.eligibleTextMessage) ==> r == s.eligibleTextMessage.value
    ensures !Php.Truthy(s.eligibleTextMessage) ==> r == DefaultEligibleTextMessage
    ensures Php.Truthy(Some(r))
  {
    Php.Elvis(s.eligibleTextMessage, DefaultEligibleTextMessage)
  }

  // Properties relating several calls.

  /** The total is chosen by the two subtotal flags alone: the enabled flag
      and the threshold settings never change it. */
  lemma CurrentTotalIgnoresEnable(s: Settings, q: Quote, enable: Option<string>, useCore: Option<string>)
    ensures CurrentTotal(s.(isEnable := enable, useCoreFreeShippingConfig := useCore), q) == CurrentTotal(s, q)
  {
  }

  /** Free shipping is within reach of some cart exactly when the module is
      enabled: whatever the threshold, a cart whose totals all equal it
      qualifies. */
  lemma EligibleCartExistsIffEnabled(s: Settings)
    ensures (exists q :: IsOrderEligibleForFreeShipping(s, q)) <==> IsEnable(s)
  {
    if IsEnable(s) {
      var t := FreeShippingMinValue(s);
      assert IsOrderEligibleForFreeShipping(s, Quote(t, t, t));
    }
  }

  /** A disabled module is never eligible, whatever the quote holds. */
  lemma DisabledNeverEligible(s: Settings, q: Quote)
    requires !IsModuleEnable(s)
    ensures !IsOrderEligibleForFreeShipping(s, q)
  {
  }
}
