/**
 * The Asaas payment adapter of api/asaas.py: the sandbox/production choice, the
 * checkout page URL, the checkout request and its outcome (the HTTP call itself is
 * an input), the webhook token check and the CHECKOUT_PAID handler.
 */
module Asaas {
  import opened Wrappers
  import opened Text
  import opened JsonValue
  import opened Store

  const ProductionApiUrl := "https://api.asaas.com"
  const SandboxApiUrl := "https://api-sandbox.asaas.com"
  const ProductionHost := "asaas.com"
  const SandboxHost := "sandbox.asaas.com"

  /** The webhook event kind that confirms a payment. */
  const CheckoutPaid := "CHECKOUT_PAID"

  /** `os.getenv("ASAAS_PRODUCTION", "false").lower() in ("true", "1")`; `env` is the variable, None when unset. */
  predicate IsProduction(env: Option<string>) {
    AsciiLower(env.GetOr("false")) in {"true", "1"}
  }

  /** Production is chosen exactly by "1" or by "true" in any mix of letter cases; unset means sandbox. */
  lemma IsProductionSpellings(env: Option<string>)
    ensures IsProduction(env) <==>
      (env.Some? && (env.value == "1" ||
        (|env.value| == 4 && env.value[0] in {'t', 'T'} && env.value[1] in {'r', 'R'}
          && env.value[2] in {'u', 'U'} && env.value[3] in {'e', 'E'})))
  {
    var s := env.GetOr("false");
    var l := AsciiLower(s);
    assert l == "true" ==>
      (|s| == 4 && LowerChar(s[0]) == 't' && LowerChar(s[1]) == 'r' && LowerChar(s[2]) == 'u' && LowerChar(s[3]) == 'e');
    assert l == "1" ==> |s| == 1 && LowerChar(s[0]) == '1';
    assert (|s| == 4 && s[0] in {'t', 'T'} && s[1] in {'r', 'R'} && s[2] in {'u', 'U'} && s[3] in {'e', 'E'})
      ==> l == "true";
    assert s == "1" ==> l == "1";
    assert env.None? ==> l[0] == 'f';
  }

  /** `_base_url()`. */
  function BaseUrl(productionEnv: Option<string>): string {
    if IsProduction(productionEnv) then ProductionApiUrl else SandboxApiUrl
  }

  /** `_checkout_page_url(checkout_id)`. */
  function CheckoutPageUrl(productionEnv: Option<string>, checkoutId: string): string {
    var host := if IsProduction(productionEnv) then ProductionHost else SandboxHost;
    PagePrefix(host) + checkoutId
  }

  /** `https://{host}/checkoutSession/show?id=`: the page URL without the checkout id. */
  function PagePrefix(host: string): string {
    "https://" + host + "/checkoutSession/show?id="
  }

  /** Reads the checkout id back out of a checkout page URL of either host. */
  function CheckoutIdOfPageUrl(url: string): Option<string> {
    if StartsWith(url, PagePrefix(ProductionHost)) then Some(url[|PagePrefix(ProductionHost)|..])
    else if StartsWith(url, PagePrefix(SandboxHost)) then Some(url[|PagePrefix(SandboxHost)|..])
    else None
  }

  /**
   * The page URL is on the production host exactly when production is configured, and
   * the checkout id can be read back from it.
   */
  lemma CheckoutPageUrlRoundTrip(productionEnv: Option<string>, checkoutId: string)
    ensures var url := CheckoutPageUrl(productionEnv, checkoutId);
      && (StartsWith(url, PagePrefix(ProductionHost)) <==> IsProduction(productionEnv))
      && (StartsWith(url, PagePrefix(SandboxHost)) <==> !IsProduction(productionEnv))
      && CheckoutIdOfPageUrl(url) == Some(checkoutId)
  {
    assert PagePrefix(ProductionHost)[8] == 'a' && PagePrefix(SandboxHost)[8] == 's';
    if IsProduction(productionEnv) {
      PrefixedUrl(PagePrefix(ProductionHost), PagePrefix(SandboxHost), checkoutId);
    } else {
      PrefixedUrl(PagePrefix(SandboxHost), PagePrefix(ProductionHost), checkoutId);
    }
  }

  lemma PrefixedUrl(prefix: string, other: string, checkoutId: string)
    requires |prefix| > 8 && |other| > 8 && prefix[8] != other[8]
    ensures StartsWith(prefix + checkoutId, prefix) && !StartsWith(prefix + checkoutId, other)
    ensures (prefix + checkoutId)[|prefix|..] == checkoutId
  {
    var url := prefix + checkoutId;
    assert url[..|prefix|] == prefix;
    assert url[8] == prefix[8];
  }

  // ---------------------------------------------------------------------------
  // criar_checkout

  const MaxCustomerName := 255

  /** The JSON body `criar_checkout` posts; the item's value and placeholder image are left out. */
  datatype CheckoutPayload = CheckoutPayload(
    billingTypes: seq<string>,
    chargeTypes: seq<string>,
    externalReference: string,
    successUrl: string,
    cancelUrl: string,
    itemName: string,
    itemDescription: string,
    itemQuantity: nat,
    customerName: string,
    customerEmail: string,
    minutesToExpire: nat)

  /** The POST request: endpoint, `access_token` header and body. */
  datatype CheckoutRequest = CheckoutRequest(url: string, accessToken: string, payload: CheckoutPayload)

  /** `{"id": checkout_id, "checkout_url": url}`. */
  datatype Checkout = Checkout(id: string, checkoutUrl: string)

  /**
   * What the HTTP call gave back: an HTTPError or URLError (with the message the code
   * extracts from it), or a reply whose `id` field is `id`.
   */
  datatype AsaasReply = TransportFailure(message: string) | Replied(id: Option<string>)

  /** The request sent (None when none was) and the value returned or the ValueError raised. */
  datatype CheckoutCall = CheckoutCall(request: Option<CheckoutRequest>, result: Result<Checkout, string>)

  function BuildPayload(orderId: string, customerName: string, customerEmail: string, successUrl: string, cancelUrl: string)
    : (p: CheckoutPayload)
    ensures p.externalReference == orderId
    ensures p.successUrl == successUrl && p.cancelUrl == cancelUrl && p.customerEmail == customerEmail
    ensures |p.customerName| <= MaxCustomerName && StartsWith(customerName, p.customerName)
    ensures |customerName| <= MaxCustomerName ==> p.customerName == customerName
    ensures |customerName| > MaxCustomerName ==> |p.customerName| == MaxCustomerName
  {
    var name := if |customerName| <= MaxCustomerName then customerName else customerName[..MaxCustomerName];
    CheckoutPayload(["CREDIT_CARD", "PIX"], ["DETACHED"], orderId, successUrl, cancelUrl,
      "Livro Pet Story", "Livro de colorir personalizado do seu pet", 1,
      name, customerEmail, 30)
  }

  /**
   * `criar_checkout`. `apiKeyEnv` is ASAAS_API_KEY (None when unset) and `reply` what the
   * HTTP call gives back.
   */
  function CriarCheckout(apiKeyEnv: Option<string>, productionEnv: Option<string>, orderId: string,
                         customerName: string, customerEmail: string, successUrl: string, cancelUrl: string,
                         reply: AsaasReply): (c: CheckoutCall)
    ensures PyStrip(apiKeyEnv.GetOr("")) == "" ==> c.request.None? && c.result.Err?
    ensures PyStrip(apiKeyEnv.GetOr("")) != "" ==> c.request == Some(CheckoutRequest(
      BaseUrl(productionEnv) + "/v3/checkouts", PyStrip(apiKeyEnv.GetOr("")),
      BuildPayload(orderId, customerName, customerEmail, successUrl, cancelUrl)))
    ensures c.result.Ok? <==> c.request.Some? && reply.Replied? && reply.id.Some? && reply.id.value != ""
    ensures c.result.Ok? ==>
      && c.result.value.id == reply.id.value
      && c.result.value.checkoutUrl == CheckoutPageUrl(productionEnv, reply.id.value)
      && CheckoutIdOfPageUrl(c.result.value.checkoutUrl) == Some(reply.id.value)
  {
    var apiKey := PyStrip(apiKeyEnv.GetOr(""));
    if apiKey == "" then
      CheckoutCall(None, Err("ASAAS_API_KEY não configurada"))
    else
      var request := CheckoutRequest(BaseUrl(productionEnv) + "/v3/checkouts", apiKey,
        BuildPayload(orderId, customerName, customerEmail, successUrl, cancelUrl));
      match reply
      case TransportFailure(msg) => CheckoutCall(Some(request), Err("Asaas: " + msg))
      case Replied(id) =>
        if id.None? || id.value == "" then CheckoutCall(Some(request), Err("Asaas: resposta sem id de checkout"))
        else
          CheckoutPageUrlRoundTrip(productionEnv, id.value);
          CheckoutCall(Some(request), Ok(Checkout(id.value, CheckoutPageUrl(productionEnv, id.value))))
  }

  // ---------------------------------------------------------------------------
  // Webhook

  /** `webhook_token_valido(token_recebido, token_esperado)`. */
  predicate WebhookTokenValido(received: Option<string>, expected: Option<string>) {
    if PyStrip(expected.GetOr("")) == "" then true
    else PyStrip(received.GetOr("")) == PyStrip(expected.GetOr(""))
  }

  /** A string made only of whitespace strips to nothing. */
  lemma BlankStripsToEmpty(s: string)
    requires forall i :: 0 <= i < |s| ==> s[i] in PyWhitespace
    ensures PyStrip(s) == ""
  {
    TrimLeftFacts(s, PyWhitespace);
  }

  /** With no token configured (unset, empty or whitespace) every request passes, whatever it sends. */
  lemma TokenUnconfiguredAcceptsAll(received: Option<string>, expected: Option<string>)
    requires expected.None? || forall i :: 0 <= i < |expected.value| ==> expected.value[i] in PyWhitespace
    ensures WebhookTokenValido(received, expected)
  {
    if expected.Some? {
      BlankStripsToEmpty(expected.value);
    } else {
      assert PyStrip("") == "";
    }
  }

  /** With a token configured, a request passes exactly when its stripped token equals the stripped configured one. */
  lemma TokenConfiguredMustMatch(received: Option<string>, expected: string)
    requires PyStrip(expected) != ""
    ensures WebhookTokenValido(received, Some(expected)) <==> PyStrip(received.GetOr("")) == PyStrip(expected)
    ensures !WebhookTokenValido(None, Some(expected))
  {
    assert PyStrip("") == "";
  }

  /** The configured token surrounded by whitespace is accepted. */
  lemma TokenPaddingAccepted(pre: string, expected: string, post: string)
    requires forall i :: 0 <= i < |pre| ==> pre[i] in PyWhitespace
    requires forall i :: 0 <= i < |post| ==> post[i] in PyWhitespace
    ensures WebhookTokenValido(Some(pre + expected + post), Some(expected))
  {
    StripIgnoresPadding(pre, expected, post, PyWhitespace);
  }

  /**
   * What `processar_webhook(body)` does over the store's dictionary: Ok(Some(id)) when
   * it marks order `id` paid (and returns True), Ok(None) when it returns False, Err when
   * it raises (`.get` on a value that is not a dict).
   */
  function WebhookTarget(body: Json, ids: seq<string>, orders: map<string, Order>): Result<Option<string>, string>
    requires forall i :: 0 <= i < |ids| ==> ids[i] in orders
  {
    if !body.JObj? then Err("AttributeError: 'get'")
    else if Get(body.fields, "event") != JStr(CheckoutPaid) then Ok(None)
    else
      var checkout := Get(body.fields, "checkout");
      if !Truthy(checkout) then Ok(None)
      else if !checkout.JObj? then Err("AttributeError: 'get'")
      else
        var checkoutId := Get(checkout.fields, "id");
        // Stored checkout ids are strings, so a truthy id of another JSON type matches no order.
        if !Truthy(checkoutId) || !checkoutId.JStr? then Ok(None)
        else
          match FindByCheckoutId(ids, orders, checkoutId.s)
          case None => Ok(None)
          case Some(order) => if order.orderId == "" then Ok(None) else Ok(Some(order.orderId))
  }

  /** The order a webhook marks is one of the store's keys, and one that holds a checkout id. */
  lemma WebhookTargetIsStored(body: Json, ids: seq<string>, orders: map<string, Order>)
    requires forall i :: 0 <= i < |ids| ==> ids[i] in orders
    ensures var t := WebhookTarget(body, ids, orders);
      t.Ok? && t.value.Some? ==> t.value.value in orders && orders[t.value.value].asaasCheckoutId.Some?
  {
    var t := WebhookTarget(body, ids, orders);
    if t.Ok? && t.value.Some? {
      var checkoutId := Get(Get(body.fields, "checkout").fields, "id");
      FindByCheckoutIdFirst(ids, orders, checkoutId.s);
    }
  }

  /** An event whose checkout id no order holds leaves everything as it is. */
  lemma WebhookUnknownCheckoutIgnored(fields: map<string, Json>, checkout: map<string, Json>, checkoutId: string,
                                      ids: seq<string>, orders: map<string, Order>)
    requires forall i :: 0 <= i < |ids| ==> ids[i] in orders
    requires Get(fields, "checkout") == JObj(checkout) && Get(checkout, "id") == JStr(checkoutId)
    requires forall i :: 0 <= i < |ids| ==> orders[ids[i]].asaasCheckoutId != Some(checkoutId)
    ensures WebhookTarget(JObj(fields), ids, orders) == Ok(None)
  {
    FindByCheckoutIdFirst(ids, orders, checkoutId);
  }

  /** A CHECKOUT_PAID event marks the first order, in key order, that holds its checkout id. */
  lemma WebhookMarksFirstHolder(fields: map<string, Json>, checkout: map<string, Json>, checkoutId: string,
                                ids: seq<string>, orders: map<string, Order>, i: nat)
    requires forall k :: 0 <= k < |ids| ==> ids[k] in orders
    requires Get(fields, "event") == JStr(CheckoutPaid)
    requires Get(fields, "checkout") == JObj(checkout) && Get(checkout, "id") == JStr(checkoutId) && checkoutId != ""
    requires i < |ids| && ids[i] != "" && orders[ids[i]].asaasCheckoutId == Some(checkoutId)
    requires forall j :: 0 <= j < i ==> orders[ids[j]].asaasCheckoutId != Some(checkoutId)
    ensures WebhookTarget(JObj(fields), ids, orders) == Ok(Some(ids[i]))
  {
    FindByCheckoutIdFirst(ids, orders, checkoutId);
    var r := FindByCheckoutId(ids, orders, checkoutId);
    var k :| 0 <= k < |ids| && r.value == Entry(ids, orders, k)
      && orders[ids[k]].asaasCheckoutId == Some(checkoutId)
      && forall j :: 0 <= j < k ==> orders[ids[j]].asaasCheckoutId != Some(checkoutId);
    assert k == i;
  }

  /** Changing fields other than the checkout id leaves the checkout-id scan finding the same key. */
  lemma {:induction false} FindIgnoresOtherFields(ids: seq<string>, orders: map<string, Order>, key: string, o: Order, checkoutId: string)
    requires forall i :: 0 <= i < |ids| ==> ids[i] in orders
    requires key in orders && o.asaasCheckoutId == orders[key].asaasCheckoutId
    ensures var r1 := FindByCheckoutId(ids, orders, checkoutId);
      var r2 := FindByCheckoutId(ids, orders[key := o], checkoutId);
      (r1.None? <==> r2.None?) && (r1.Some? ==> r1.value.orderId == r2.value.orderId)
  {
    if ids != [] {
      FindIgnoresOtherFields(ids[1..], orders, key, o, checkoutId);
    }
  }

  /** The store after `processar_webhook` with this target. */
  function MarkPaid(orders: map<string, Order>, target: Option<string>, now: string): map<string, Order> {
    if target.Some? && target.value in orders
    then orders[target.value := WithPagamento(orders[target.value], PaymentConfirmed, now)]
    else orders
  }

  /**
   * An event that is not CHECKOUT_PAID, a falsy `checkout`, or a falsy `checkout.id`
   * is ignored: `processar_webhook` returns False and the store is left as it was.
   */
  lemma WebhookIgnoredEvents(fields: map<string, Json>, ids: seq<string>, orders: map<string, Order>, now: string)
    requires forall i :: 0 <= i < |ids| ==> ids[i] in orders
    requires Get(fields, "event") != JStr(CheckoutPaid)
          || !Truthy(Get(fields, "checkout"))
          || (Get(fields, "checkout").JObj? && !Truthy(Get(Get(fields, "checkout").fields, "id")))
    ensures WebhookTarget(JObj(fields), ids, orders) == Ok(None)
    ensures MarkPaid(orders, None, now) == orders
  {
  }

  /**
   * A duplicate CHECKOUT_PAID event marks the same order again, and the store ends as
   * after the first event except that `updated_at` holds the second event's time.
   */
  lemma WebhookDuplicateIdempotent(body: Json, ids: seq<string>, orders: map<string, Order>, t1: string, t2: string)
    requires KeyOrder(ids, orders)
    requires WebhookTarget(body, ids, orders).Ok?
    ensures var target := WebhookTarget(body, ids, orders).value;
      var once := MarkPaid(orders, target, t1);
      && WebhookTarget(body, ids, once) == Ok(target)
      && MarkPaid(once, target, t2) == MarkPaid(orders, target, t2)
      && (target.Some? ==> target.value in once && once[target.value].pagamento == PaymentConfirmed)
  {
    var target := WebhookTarget(body, ids, orders).value;
    WebhookTargetIsStored(body, ids, orders);
    if target.Some? {
      var key := target.value;
      var checkoutId := Get(Get(body.fields, "checkout").fields, "id");
      FindIgnoresOtherFields(ids, orders, key, WithPagamento(orders[key], PaymentConfirmed, t1), checkoutId.s);
    }
  }

  /**
   * `processar_webhook(body)` run against the store, as written: the guard chain, then
   * `return store.update_order_pagamento(order_id, "ok")`. Ok(b) is the returned bool,
   * Err an exception. The caller only learns whether some order was marked.
   */
  method ProcessarWebhook(store: OrderStore, body: Json, now: string) returns (r: Result<bool, string>)
    requires store.Valid()
    modifies store
    ensures store.Valid() && store.ids == old(store.ids)
    ensures var t := WebhookTarget(body, old(store.ids), old(store.orders));
      && (t.Err? ==> r == Err(t.error))
      && (t.Ok? ==> r == Ok(t.value.Some?))
      && store.orders == (if t.Ok? then MarkPaid(old(store.orders), t.value, now) else old(store.orders))
    ensures r == Ok(true) ==> WebhookTarget(body, old(store.ids), old(store.orders)).value.value in old(store.orders)
  {
    var target := ProcessarWebhookFixed(store, body, now);
    if target.Err? {
      return Err(target.error);
    }
    return Ok(target.value.Some?);
  }

  /**
   * `processar_webhook` as its caller in api/main.py uses it: the same guard chain and
   * update, returning the id of the order it marked paid instead of a bool.
   */
  method ProcessarWebhookFixed(store: OrderStore, body: Json, now: string) returns (r: Result<Option<string>, string>)
    requires store.Valid()
    modifies store
    ensures store.Valid() && store.ids == old(store.ids)
    ensures r == WebhookTarget(body, old(store.ids), old(store.orders))
    ensures store.orders == (if r.Ok? then MarkPaid(old(store.orders), r.value, now) else old(store.orders))
    ensures r.Ok? && r.value.Some? ==>
      (r.value.value in old(store.orders) && r.value.value in store.orders
       && store.orders[r.value.value].pagamento == PaymentConfirmed)
  {
    WebhookTargetIsStored(body, store.ids, store.orders);
    if !body.JObj? {
      return Err("AttributeError: 'get'");
    }
    var event := Get(body.fields, "event");
    if event != JStr(CheckoutPaid) {
      return Ok(None);
    }
    var checkout := Get(body.fields, "checkout");
    if !Truthy(checkout) {
      return Ok(None);
    }
    if !checkout.JObj? {
      return Err("AttributeError: 'get'");
    }
    var checkoutId := Get(checkout.fields, "id");
    if !Truthy(checkoutId) || !checkoutId.JStr? {
      return Ok(None);
    }
    var order := store.GetOrderByAsaasCheckoutId(checkoutId.s);
    if order.None? {
      return Ok(None);
    }
    var orderId := order.value.orderId;
    if orderId == "" {
      return Ok(None);
    }
    var _ := store.UpdateOrderPagamento(orderId, PaymentConfirmed, now);
    return Ok(Some(orderId));
  }
}
