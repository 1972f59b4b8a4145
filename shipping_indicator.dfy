/** The checkout page's progress widget: it recomputes the current total,
    eligibility, the remaining amount and the bar width from the payload
    the server sent and the cart totals the page holds.

    Numbers are the widget's numbers: where the source can produce NaN or
    an infinity (a payload without a threshold, a threshold of 0), the
    model follows what the comparisons and the clamp then do. */
module ShippingIndicator {
  import opened Wrappers
  import opened CheckoutConfigProvider

  /** The cart totals segments, already parsed as numbers. A discount is
      negative; no discount is 0. */
  datatype Segments = Segments(subtotal: real, discountAmount: real, grandTotal: real)

  /** A bar width in percent, or NaN. */
  datatype Width = Percent(value: real) | NotANumber

  /** `config[key]`, `undefined` (None) when the payload lacks the key. */
  function Get(config: map<string, Json>, key: string): Option<Json> {
    if key in config then Some(config[key]) else None
  }

  /** The loose comparison `v == 1`. Of the strings, only "1" is taken to
      compare equal (see README). */
  predicate LooseEqualsOne(v: Option<Json>)
    ensures LooseEqualsOne(v) <==> v == Some(JBool(true)) || v == Some(JNum(1.0)) || v == Some(JStr("1"))
  {
    match v
    case None => false
    case Some(JNull) => false
    case Some(JBool(b)) => b
    case Some(JNum(n)) => n == 1.0
    case Some(JStr(s)) => s == "1"
  }

  /** The threshold as a number, None standing for NaN: `undefined`
      converts to NaN, `null` and booleans to 0 or 1. The payload never
      holds a string at this key, and strings are not converted. */
  function Threshold(config: map<string, Json>): (r: Option<real>)
    ensures "threshold" in config && config["threshold"].JNum? ==> r == Some(config["threshold"].n)
    ensures "threshold" in config && config["threshold"] == JNull ==> r == Some(0.0)
    ensures r.None? <==> "threshold" !in config || config["threshold"].JStr?
  {
    match Get(config, "threshold")
    case Some(JNum(n)) => Some(n)
    case Some(JNull) => Some(0.0)
    case Some(JBool(b)) => Some(if b then 1.0 else 0.0)
    case _ => None
  }

  function IsVisible(config: map<string, Json>): (r: Option<Json>)
    ensures "enabled" in config ==> r == Some(config["enabled"])
    ensures "enabled" !in config ==> r.None?
  {
    Get(config, "enabled")
  }

  /** The current total: 0 without totals; the subtotal when the subtotal
      flag equals 1, with the discount added when the discount flag equals
      1; the grand total otherwise. Adding a zero discount is skipped,
      which changes nothing. */
  function CurrentTotal(config: map<string, Json>, totals: Option<Segments>): (r: real)
    ensures totals.None? ==> r == 0.0
    ensures totals.Some? && !LooseEqualsOne(Get(config, "useSubtotal")) ==> r == totals.value.grandTotal
    ensures totals.Some? && LooseEqualsOne(Get(config, "useSubtotal")) ==>
              r == totals.value.subtotal +
                   (if LooseEqualsOne(Get(config, "includeDiscount")) then totals.value.discountAmount else 0.0)
  {
    match totals
    case None => 0.0
    case Some(segments) =>
      if LooseEqualsOne(Get(config, "useSubtotal")) then
        var val := segments.subtotal;
        if LooseEqualsOne(Get(config, "includeDiscount")) && segments.discountAmount != 0.0 then
          val + segments.discountAmount
        else
          val
      else
        segments.grandTotal
  }

  /** Eligibility: the current total reaches the threshold (equality
      included). Against NaN every comparison fails. */
  predicate IsFreeShipping(config: map<string, Json>, totals: Option<Segments>)
    ensures Threshold(config).Some? ==>
              (IsFreeShipping(config, totals) <==> CurrentTotal(config, totals) >= Threshold(config).value)
    ensures Threshold(config).None? ==> !IsFreeShipping(config, totals)
  {
    match Threshold(config)
    case None => false
    case Some(threshold) => CurrentTotal(config, totals) >= threshold
  }

  /** Some cart ships free exactly when the payload carries a threshold:
      totals that all equal the threshold reach it. */
  lemma FreeCartExistsIffThreshold(config: map<string, Json>)
    ensures (exists segments :: IsFreeShipping(config, Some(segments))) <==> Threshold(config).Some?
  {
    if Threshold(config).Some? {
      var t := Threshold(config).value;
      assert IsFreeShipping(config, Some(Segments(t, 0.0, t)));
    }
  }

  /** The amount handed to the price formatter: what is still missing,
      never negative, and 0 exactly when the order ships free. */
  function RemainingAmount(config: map<string, Json>, totals: Option<Segments>): (r: real)
    ensures r >= 0.0
    ensures Threshold(config).Some? ==> (r == 0.0 <==> IsFreeShipping(config, totals))
    ensures Threshold(config).Some? && r > 0.0 ==> r + CurrentTotal(config, totals) == Threshold(config).value
    ensures Threshold(config).None? ==> r == 0.0
  {
    match Threshold(config)
    case None => 0.0
    case Some(threshold) =>
      var remaining := threshold - CurrentTotal(config, totals);
      if remaining > 0.0 then remaining else 0.0
  }

  /** `p > 100 ? 100 : (p < 0 ? 0 : p)`. */
  function Clamp(p: real): (r: real)
    ensures 0.0 <= r <= 100.0
    ensures 0.0 <= p <= 100.0 ==> r == p
    ensures p >= 100.0 <==> r == 100.0
    ensures p <= 0.0 <==> r == 0.0
  {
    if p > 100.0 then 100.0 else if p < 0.0 then 0.0 else p
  }

  /** For a positive threshold, the percentage reaches 100 exactly when the
      total reaches the threshold. */
  lemma ReachesHundred(total: real, threshold: real)
    ensures threshold > 0.0 ==> ((total / threshold) * 100.0 >= 100.0 <==> total >= threshold)
  {
  }

  /** The bar width: the current total as a percentage of the threshold,
      clamped into [0, 100]. Dividing by a zero threshold gives an infinity
      of the total's sign, which the clamp turns into 100 or 0, or NaN for a
      zero total; a missing threshold gives NaN. */
  function BarWidth(config: map<string, Json>, totals: Option<Segments>): (w: Width)
    ensures w.Percent? ==> 0.0 <= w.value <= 100.0
    ensures Threshold(config).Some? && Threshold(config).value != 0.0 ==>
              w == Percent(Clamp((CurrentTotal(config, totals) / Threshold(config).value) * 100.0))
    ensures Threshold(config).Some? && Threshold(config).value > 0.0 && 0.0 <= CurrentTotal(config, totals) <= Threshold(config).value ==>
              w.value * Threshold(config).value == CurrentTotal(config, totals) * 100.0
    ensures Threshold(config).Some? && Threshold(config).value > 0.0 && CurrentTotal(config, totals) < 0.0 ==>
              w == Percent(0.0)
    ensures Threshold(config) == Some(0.0) ==>
              (w == Percent(100.0) <==> CurrentTotal(config, totals) > 0.0) &&
              (w == NotANumber <==> CurrentTotal(config, totals) == 0.0)
    ensures Threshold(config).Some? && Threshold(config).value > 0.0 ==>
              (w == Percent(100.0) <==> IsFreeShipping(config, totals))
    ensures Threshold(config).None? ==> w == NotANumber
  {
    match Threshold(config)
    case None => NotANumber
    case Some(threshold) =>
      var total := CurrentTotal(config, totals);
      if threshold != 0.0 then
        ReachesHundred(total, threshold);
        Percent(Clamp((total / threshold) * 100.0))
      else if total > 0.0 then Percent(100.0)
      else if total < 0.0 then Percent(0.0)
      else NotANumber
  }
}
