/** The store-scoped configuration the engine reads, as the configuration
    source returns it (one field per configuration path), and the typed
    views of it that the module's helper hands to the server-side block. */
module StoreConfig {
  import opened Wrappers
  import Php

  /** Raw configuration values. Yes/no flags and display strings are
      strings or null; the two amounts are numbers or null. */
  datatype Settings = Settings(
    isEnable: Option<string>,                       // ship_indicator/general/is_enable
    useCoreFreeShippingConfig: Option<string>,      // ship_indicator/general/use_core_freeshipping_config
    orderMinTotal: Option<real>,                    // ship_indicator/general/order_min_total
    useOrderSubtotal: Option<string>,               // ship_indicator/general/use_order_subtotal
    orderSubtotalIncludesDiscount: Option<string>,  // ship_indicator/general/order_subtotal_includes_discount
    freeShippingSubtotal: Option<real>,             // carriers/freeshipping/free_shipping_subtotal
    fontSize: Option<string>,                       // ship_indicator/customization/font_size
    textMessage: Option<string>,                    // ship_indicator/customization/text_message
    messageTextColor: Option<string>,               // ship_indicator/customization/message_text_color
    messageBackground: Option<string>,              // ship_indicator/customization/message_background
    progressBarColor: Option<string>,               // ship_indicator/customization/progress_bar_color
    eligibleTextMessage: Option<string>,            // ship_indicator/customization/eligible_text_message
    customCss: Option<string>                       // ship_indicator/customization/custom_css
  )

  // The helper's `(bool)` and `(float)` views of the raw values.

  predicate IsEnable(s: Settings) { Php.Truthy(s.isEnable) }

  predicate CoreShippingConfig(s: Settings) { Php.Truthy(s.useCoreFreeShippingConfig) }

  function OrderMinTotal(s: Settings): real { Php.FloatCast(s.orderMinTotal) }

  predicate OrderSubtotal(s: Settings) { Php.Truthy(s.useOrderSubtotal) }

  predicate OrderSubtotalWithDiscount(s: Settings) { Php.Truthy(s.orderSubtotalIncludesDiscount) }

  function CoreFreeShippingSubtotal(s: Settings): real { Php.FloatCast(s.freeShippingSubtotal) }
}
