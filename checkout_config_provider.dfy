/** The checkout configuration provider: the payload the server hands to
    the checkout page under the key "shipIndicator". It reads the raw store
    settings itself, repeats the threshold choice and applies its own
    colour defaults. */
module CheckoutConfigProvider {
  import opened Wrappers
  import Php
  import opened StoreConfig

  /** A value of the payload as it reaches the browser. */
  datatype Json = JNull | JBool(b: bool) | JNum(n: real) | JStr(s: string)

  const DefaultTextColor: string := "#ffffff"
  const DefaultBgColor: string := "#ff5501"
  const DefaultBarColor: string := "#00a651"

  /** The keys of the payload of an enabled module. */
  const EnabledKeys: set<string> := {
    "enabled", "threshold", "useSubtotal", "includeDiscount", "msgText", "successMsg",
    "fontSize", "textColor", "bgColor", "barColor", "customCss"
  }

  /** A raw configuration value passed through unchanged: null stays null. */
  function Raw(v: Option<string>): (j: Json)
    ensures v.None? <==> j == JNull
    ensures v.Some? ==> j == JStr(v.value)
  {
    match v
    case None => JNull
    case Some(x) => JStr(x)
  }

  function GetConfig(s: Settings): (r: map<string, map<string, Json>>)
    ensures r.Keys == {"shipIndicator"}
    ensures !Php.Truthy(s.isEnable) ==> r["shipIndicator"] == map["enabled" := JBool(false)]
    ensures Php.Truthy(s.isEnable) ==> r["shipIndicator"].Keys == EnabledKeys
    ensures Php.Truthy(s.isEnable) ==> r["shipIndicator"]["enabled"] == JBool(true)
  {
    if !Php.Truthy(s.isEnable) then
      map["shipIndicator" := map["enabled" := JBool(false)]]
    else
      var threshold := if Php.Truthy(s.useCoreFreeShippingConfig) then s.freeShippingSubtotal else s.orderMinTotal;
      map["shipIndicator" := map[
        "enabled" := JBool(true),
        "threshold" := JNum(Php.FloatCast(threshold)),
        "useSubtotal" := Raw(s.useOrderSubtotal),
        "includeDiscount" := Raw(s.orderSubtotalIncludesDiscount),
        "msgText" := Raw(s.textMessage),
        "successMsg" := Raw(s.eligibleTextMessage),
        "fontSize" := Raw(s.fontSize),
        "textColor" := JStr(Php.Elvis(s.messageTextColor, DefaultTextColor)),
        "bgColor" := JStr(Php.Elvis(s.messageBackground, DefaultBgColor)),
        "barColor" := JStr(Php.Elvis(s.progressBarColor, DefaultBarColor)),
        "customCss" := Raw(s.customCss)
      ]]
  }

  /** The inner payload the checkout page sees. */
  function Payload(s: Settings): map<string, Json> {
    GetConfig(s)["shipIndicator"]
  }

  /** An enabled module sends exactly eleven keys. */
  lemma EnabledPayloadHasElevenKeys(s: Settings)
    requires Php.Truthy(s.isEnable)
    ensures |Payload(s)| == 11
  {
    assert Payload(s).Keys == EnabledKeys;
    EnabledKeysCount();
  }

  /** The eleven key names are pairwise distinct. */
  lemma EnabledKeysCount()
    ensures |EnabledKeys| == 11
  {
  }

  /** The threshold is the float cast of the core carrier's subtotal when
      the use-core flag is truthy, of the module's own minimum otherwise;
      an absent value sends 0.0. */
  lemma ThresholdChoice(s: Settings)
    requires Php.Truthy(s.isEnable)
    ensures Php.Truthy(s.useCoreFreeShippingConfig) ==> Payload(s)["threshold"] == JNum(Php.FloatCast(s.freeShippingSubtotal))
    ensures !Php.Truthy(s.useCoreFreeShippingConfig) ==> Payload(s)["threshold"] == JNum(Php.FloatCast(s.orderMinTotal))
    ensures s.freeShippingSubtotal.None? && s.orderMinTotal.None? ==> Payload(s)["threshold"] == JNum(0.0)
  {
  }

  /** The three colours fall back to their defaults when falsy; every other
      display value and both subtotal flags pass through raw. */
  lemma DisplayValues(s: Settings)
    requires Php.Truthy(s.isEnable)
    ensures Payload(s)["textColor"] == JStr(if Php.Truthy(s.messageTextColor) then s.messageTextColor.value else DefaultTextColor)
    ensures Payload(s)["bgColor"] == JStr(if Php.Truthy(s.messageBackground) then s.messageBackground.value else DefaultBgColor)
    ensures Payload(s)["barColor"] == JStr(if Php.Truthy(s.progressBarColor) then s.progressBarColor.value else DefaultBarColor)
    ensures Payload(s)["useSubtotal"] == Raw(s.useOrderSubtotal)
    ensures Payload(s)["includeDiscount"] == Raw(s.orderSubtotalIncludesDiscount)
    ensures Payload(s)["msgText"] == Raw(s.textMessage)
    ensures Payload(s)["successMsg"] == Raw(s.eligibleTextMessage)
    ensures Payload(s)["fontSize"] == Raw(s.fontSize)
    ensures Payload(s)["customCss"] == Raw(s.customCss)
  {
  }
}
