/**
 * The shop: an in-memory order store keyed by order id, and the decision logic of the
 * handlers that read and change it. HTTP plumbing is stripped away: each handler takes
 * the already extracted form fields and returns the reply it would send.
 */
module App {
  import opened Wrappers
  import opened Strings
  import opened Dicts
  import opened RobokassaClient

  /**
   * Python's `Decimal` for finite values: `coefficient * 10^exponent`. The exponent is
   * kept so that `Decimal("100.00")` and `Decimal("100")` stay distinct for rendering.
   */
  datatype Decimal = Decimal(coefficient: int, exponent: int)

  /** `amount > 0`: `10^exponent` is positive, so the sign is the coefficient's. */
  predicate IsPositive(a: Decimal) {
    a.coefficient > 0
  }

  /** The status strings the core writes. `Unknown` is only ever shown, never stored. */
  datatype Status = Created | Pending | Paid | Unknown

  /** A value in the gateway data of an order: the echoed `OutSum`, or the echoed Shp dict. */
  datatype GatewayValue = Text(text: string) | Fields(fields: Dict)

  type GatewayData = map<string, GatewayValue>

  /**
   * An order record. A field the record lacks (a record inserted by a blind status update
   * has only `id` and `status`) is `None`.
   */
  datatype Order = Order(id: string, amount: Option<Decimal>, description: Option<string>, status: Status,
                         shp: Option<Dict>, robokassa: Option<GatewayData>)

  /** The merchant settings the handlers read. */
  datatype Config = Config(merchantLogin: string, password1: string, password2: string, testMode: bool)

  /** Where a redirect points: the order list page, or the payment gateway. */
  datatype Target = Index | Gateway(url: PaymentUrl)

  /** What a handler answers: a text body with its status code, a redirect, or an unhandled exception. */
  datatype Reply = Body(code: int, text: string) | Redirect(code: int, target: Target) | ServerError

  /** Every record sits under its own id. */
  ghost predicate IdsMatchKeys(orders: map<string, Order>) {
    forall k :: k in orders ==> orders[k].id == k
  }

  /**
   * The record `create_order` writes: every field present, status `created`, the Shp
   * dict `{"user": "demo"}`, no gateway data yet.
   */
  function NewOrder(id: string, amount: Decimal, description: string): (o: Order)
    ensures o.id == id && o.status == Created
    ensures o.amount == Some(amount) && o.description == Some(description)
    ensures o.shp.Some? && ToMap(o.shp.value) == map["user" := "demo"]
    ensures o.robokassa.None?
  {
    var shp: Dict := [("user", "demo")];
    assert Keys(shp) == {"user"} by {
      assert shp[0].0 == "user";
    }
    InToMap(shp, ("user", "demo"));
    Order(id, Some(amount), Some(description), Created, Some(shp), None)
  }

  /** The record `_update_order_status` inserts for an unknown id: only `id` and `status`. */
  function MinimalOrder(id: string, status: Status): (o: Order)
    ensures o.id == id && o.status == status
    ensures o.amount.None? && o.description.None? && o.shp.None? && o.robokassa.None?
  {
    Order(id, None, None, status, None, None)
  }

  /** The two seeded orders of `create_test_orders`. */
  function SeedOrders(): (seeds: map<string, Order>)
    ensures seeds.Keys == {"1001", "1002"}
    ensures IdsMatchKeys(seeds)
    ensures forall k :: k in seeds ==> seeds[k].status == Created
  {
    map[
      "1001" := Order("1001", Some(Decimal(10000, -2)), Some("Базовый тестовый заказ"), Created,
                      Some([("user", "1"), ("product", "basic")]), None),
      "1002" := Order("1002", Some(Decimal(25050, -2)), Some("Премиум подписка"), Created,
                      Some([("user", "2"), ("product", "premium")]), None)
    ]
  }

  /**
   * The worked examples are seeded order `1001`: its Shp dict is the example's, and with
   * the default login `demo` and password1 `password1` (config.py:8-9) and its amount
   * rendered as `100.00`, its outbound signing string is the example's string.
   */
  lemma SeedOrderSigningString(renderDecimal: Decimal -> string)
    requires renderDecimal(Decimal(10000, -2)) == "100.00"
    ensures SeedOrders()["1001"].shp == Some([("user", "1"), ("product", "basic")])
    ensures var o := SeedOrders()["1001"];
      o.amount.Some? && o.shp.Some?
      && FormatShpPart(o.shp.value) == ("Shp_" + "product" + "=" + "basic") + ":" + ("Shp_" + "user" + "=" + "1")
      && SigningString(OutboundParts("demo", renderDecimal(o.amount.value), o.id, "password1"), o.shp.value)
         == "demo" + ":" + "100.00" + ":" + "1001" + ":" + "password1"
            + ":" + (("Shp_" + "product" + "=" + "basic") + ":" + ("Shp_" + "user" + "=" + "1"))
  {
    var o := SeedOrders()["1001"];
    assert o.id == "1001" && o.amount == Some(Decimal(10000, -2));
    assert o.shp == Some([("user", "1"), ("product", "basic")]);
    ExampleShpPart();
    ExampleSigningString();
  }

  /** A form field that is present and not empty: Python's truth test on `request.form.get(...)`. */
  predicate HasValue(field: Option<string>) {
    field.Some? && field.value != ""
  }

  /** `request.form.get("order_id") or str(len(ORDERS) + 1000)`. */
  function OrderIdOrDefault(orderIdField: Option<string>, orders: map<string, Order>): (id: string)
    ensures HasValue(orderIdField) ==> id == orderIdField.value
    ensures !HasValue(orderIdField) ==> id == NatToString(|orders| + 1000)
  {
    if HasValue(orderIdField) then orderIdField.value else NatToString(|orders| + 1000)
  }

  /** Right after seeding, the default id is "1002", the id of a seeded order. */
  lemma DefaultIdCollidesAfterSeeding()
    ensures OrderIdOrDefault(None, SeedOrders()) == "1002"
    ensures "1002" in SeedOrders()
  {
    var seeds := SeedOrders();
    assert |seeds.Keys| == 2 by {
      assert seeds.Keys == {"1001"} + {"1002"};
    }
    assert |seeds| == |seeds.Keys|;
    assert NatToString(1) == "1";
    assert NatToString(10) == "10";
    assert NatToString(100) == "100";
    assert NatToString(1002) == NatToString(100) + [DigitChar(2)];
  }

  /**
   * `_validate_order_parameters`: the amount is checked first, the description second;
   * the first failing check is the raised error.
   */
  function ValidateOrderParameters(orderId: string, amount: Decimal, description: string): (r: Outcome<string>)
    ensures r == Fail("Amount must be positive") <==> !IsPositive(amount)
    ensures r == Fail("Description required") <==> IsPositive(amount) && description == ""
    ensures r == Pass <==> IsPositive(amount) && description != ""
  {
    if !IsPositive(amount) then Fail("Amount must be positive")
    else if description == "" then Fail("Description required")
    else Pass
  }

  /**
   * The order store after `_update_order_status(orderId, status, data)`: an unknown id gets
   * a minimal record and the data is dropped; a known id gets the new status and, only for
   * non-empty data, the data merged into its gateway map (created when missing).
   */
  function UpdatedOrders(orders: map<string, Order>, orderId: string, status: Status, data: GatewayData)
    : (r: map<string, Order>)
    ensures r.Keys == orders.Keys + {orderId}
    ensures forall k :: k in orders && k != orderId ==> r[k] == orders[k]
    ensures orderId !in orders ==> r[orderId] == MinimalOrder(orderId, status)
    ensures orderId in orders ==>
      var o, n := orders[orderId], r[orderId];
      n.id == o.id && n.amount == o.amount && n.description == o.description && n.shp == o.shp
      && n.status == status
      && n.robokassa == (if |data| == 0 then o.robokassa else Some(o.robokassa.GetOr(map[]) + data))
  {
    if orderId !in orders then
      orders[orderId := MinimalOrder(orderId, status)]
    else
      var o := orders[orderId];
      var merged := if |data| > 0 then Some(o.robokassa.GetOr(map[]) + data) else o.robokassa;
      orders[orderId := o.(status := status, robokassa := merged)]
  }

  /** Updating status keeps every record under its own id. */
  lemma UpdatePreservesIds(orders: map<string, Order>, orderId: string, status: Status, data: GatewayData)
    requires IdsMatchKeys(orders)
    ensures IdsMatchKeys(UpdatedOrders(orders, orderId, status, data))
  {
  }

  /** For a known id the update is idempotent. */
  lemma UpdateIdempotentForKnownId(orders: map<string, Order>, orderId: string, status: Status, data: GatewayData)
    requires orderId in orders
    ensures UpdatedOrders(UpdatedOrders(orders, orderId, status, data), orderId, status, data)
         == UpdatedOrders(orders, orderId, status, data)
  {
    var once := UpdatedOrders(orders, orderId, status, data);
    var twice := UpdatedOrders(once, orderId, status, data);
    var o := orders[orderId];
    if |data| > 0 {
      assert o.robokassa.GetOr(map[]) + data + data == o.robokassa.GetOr(map[]) + data;
    }
    assert twice[orderId] == once[orderId];
  }

  /**
   * For an unknown id it is not: the first update drops the data, the repeat stores it.
   */
  lemma BlindUpdateRepeatedStoresData(orders: map<string, Order>, orderId: string, status: Status, data: GatewayData)
    requires orderId !in orders && |data| > 0
    ensures UpdatedOrders(orders, orderId, status, data)[orderId].robokassa == None
    ensures UpdatedOrders(UpdatedOrders(orders, orderId, status, data), orderId, status, data)[orderId].robokassa
         == Some(data)
  {
    assert map[] + data == data;
  }

  /** The gateway data a confirmation merges: `{"OutSum": out_sum, "shp": shp}`. */
  function ConfirmationData(outSum: string, shp: Dict): (data: GatewayData)
    ensures data.Keys == {"OutSum", "shp"}
    ensures data["OutSum"] == Text(outSum) && data["shp"] == Fields(shp)
  {
    map["OutSum" := Text(outSum), "shp" := Fields(shp)]
  }

  /**
   * A repeated confirmation of a known order keeps it paid and overwrites the echoed
   * `OutSum` and Shp dict with the latest ones; other gateway entries survive.
   */
  lemma RepeatedConfirmation(orders: map<string, Order>, orderId: string,
                             outSum1: string, shp1: Dict, outSum2: string, shp2: Dict)
    requires orderId in orders
    ensures var twice := UpdatedOrders(UpdatedOrders(orders, orderId, Paid, ConfirmationData(outSum1, shp1)),
                                       orderId, Paid, ConfirmationData(outSum2, shp2));
      twice[orderId].status == Paid
      && twice[orderId].robokassa.Some?
      && twice[orderId].robokassa.value["OutSum"] == Text(outSum2)
      && twice[orderId].robokassa.value["shp"] == Fields(shp2)
      && (forall k :: k in orders[orderId].robokassa.GetOr(map[]) && k !in {"OutSum", "shp"} ==>
            k in twice[orderId].robokassa.value
            && twice[orderId].robokassa.value[k] == orders[orderId].robokassa.GetOr(map[])[k])
  {
  }

  /** "Shp_" followed by the key with its first four characters dropped is the key again. */
  lemma ShpSplit(k: string)
    requires StartsWith(k, "Shp_")
    ensures "Shp_" + k[4..] == k
  {
    assert k == k[..4] + k[4..];
  }

  /**
   * `{k[4:]: v for k, v in request.form.items() if k.startswith("Shp_")}`: exactly the
   * form fields with the `Shp_` prefix, the prefix removed, in the form's order.
   */
  function ExtractShp(form: Dict): (shp: Dict)
    ensures forall k :: k in Keys(shp) <==> "Shp_" + k in Keys(form)
    ensures forall x :: x in shp <==> ("Shp_" + x.0, x.1) in form
    decreases |form|
  {
    if |form| == 0 then []
    else
      var rest: Dict := form[1..];
      assert form == [form[0]] + rest;
      KeysCons(form[0], rest);
      var tail := ExtractShp(rest);
      if StartsWith(form[0].0, "Shp_") then
        ExtractPrefixed(form[0], rest, tail);
        [(form[0].0[4..], form[0].1)] + tail
      else
        ExtractUnprefixed(form[0], rest, tail);
        tail
  }

  /** A first field with the prefix contributes its entry, the prefix removed, ahead of the rest's. */
  lemma ExtractPrefixed(head: Item, rest: Dict, tail: Dict)
    requires StartsWith(head.0, "Shp_") && head.0 !in Keys(rest)
    requires forall k :: k in Keys(tail) <==> "Shp_" + k in Keys(rest)
    requires forall x :: x in tail <==> ("Shp_" + x.0, x.1) in rest
    ensures KeysUnique([(head.0[4..], head.1)] + tail)
    ensures forall k :: k in Keys([(head.0[4..], head.1)] + tail) <==> "Shp_" + k in Keys([head] + rest)
    ensures forall x :: x in [(head.0[4..], head.1)] + tail <==> ("Shp_" + x.0, x.1) in [head] + rest
  {
    ShpSplit(head.0);
    var x0 := (head.0[4..], head.1);
    KeysCons(x0, tail);
    KeysCons(head, rest);
    forall j | 0 <= j < |tail| ensures tail[j].0 != x0.0 {
      assert tail[j].0 in Keys(tail);
    }
    forall x ensures x in [x0] + tail <==> ("Shp_" + x.0, x.1) in [head] + rest {
      ShpPrefixInjective(x.0, x0.0);
    }
  }

  /** A first field without the prefix contributes nothing. */
  lemma ExtractUnprefixed(head: Item, rest: Dict, tail: Dict)
    requires !StartsWith(head.0, "Shp_")
    requires forall k :: k in Keys(tail) <==> "Shp_" + k in Keys(rest)
    requires forall x :: x in tail <==> ("Shp_" + x.0, x.1) in rest
    ensures forall k :: k in Keys(tail) <==> "Shp_" + k in Keys([head] + rest)
    ensures forall x :: x in tail <==> ("Shp_" + x.0, x.1) in [head] + rest
  {
    KeysCons(head, rest);
    forall k ensures "Shp_" + k != head.0 {
      ShpKeyIsNotFixed(k);
    }
  }

  /**
   * Round trip: the Shp fields of the outbound query, echoed back as form fields, give
   * back the order's Shp dict (as a dict: the same contents).
   */
  lemma ExtractShpOfPaymentQuery(merchantLogin: string, outSum: string, invId: string, description: string,
                                 signature: string, shp: Dict, isTest: bool)
    ensures ToMap(ExtractShp(PaymentQuery(merchantLogin, outSum, invId, description, signature, shp, isTest)))
         == ToMap(shp)
  {
    var q := PaymentQuery(merchantLogin, outSum, invId, description, signature, shp, isTest);
    var fixed := FixedParams(merchantLogin, outSum, invId, description, signature, isTest);
    PaymentQueryIsFixedThenShp(merchantLogin, outSum, invId, description, signature, shp, isTest);
    ShpParamsRoundTrip(fixed, shp);
  }

  /** The prefixed entries behind fixed, prefix-free parameters are exactly the Shp entries. */
  lemma ShpParamsRoundTrip(fixed: Dict, shp: Dict)
    requires forall j :: 0 <= j < |fixed| ==> !StartsWith(fixed[j].0, "Shp_")
    ensures KeysUnique(fixed + ShpParams(shp))
    ensures ToMap(ExtractShp(fixed + ShpParams(shp))) == ToMap(shp)
  {
    FixedThenShpUnique(fixed, shp);
    var back := ExtractShp(fixed + ShpParams(shp));
    assert forall x :: x in back <==> x in shp by {
      forall x ensures x in back <==> x in shp {
        PrefixedEntry(fixed, shp, x);
      }
    }
    SameEntriesSameContents(back, shp);
  }

  /** The prefixed form of an entry sits behind the fixed parameters exactly when the entry is in the dict. */
  lemma PrefixedEntry(fixed: seq<Item>, shp: seq<Item>, x: Item)
    requires forall j :: 0 <= j < |fixed| ==> !StartsWith(fixed[j].0, "Shp_")
    ensures ("Shp_" + x.0, x.1) in fixed + ShpParams(shp) <==> x in shp
  {
    var q := fixed + ShpParams(shp);
    var y := ("Shp_" + x.0, x.1);
    ShpKeyIsNotFixed(x.0);
    if y in q {
      var i :| 0 <= i < |q| && q[i] == y;
      if i >= |fixed| {
        ShpPrefixInjective(x.0, shp[i - |fixed|].0);
        assert shp[i - |fixed|] == x;
      }
    }
    if x in shp {
      var i :| 0 <= i < |shp| && shp[i] == x;
      assert q[|fixed| + i] == y;
    }
  }

  /** The result notification the gateway sends: `OutSum`, `InvId`, `SignatureValue` and the Shp fields. */
  function Notification(outSum: string, invId: string, signature: string, shp: Dict): (form: Dict)
    ensures Get(form, "OutSum", "") == outSum
    ensures Get(form, "InvId", "") == invId
    ensures Get(form, "SignatureValue", "") == signature
    ensures ToMap(ExtractShp(form)) == ToMap(shp)
  {
    FixedNamesNotShp();
    var fields: Dict := [("OutSum", outSum), ("InvId", invId), ("SignatureValue", signature)];
    ShpParamsRoundTrip(fields, shp);
    var form: Dict := fields + ShpParams(shp);
    assert form[0] == ("OutSum", outSum) && form[1] == ("InvId", invId) && form[2] == ("SignatureValue", signature);
    InToMap(form, ("OutSum", outSum));
    InToMap(form, ("InvId", invId));
    InToMap(form, ("SignatureValue", signature));
    form
  }

  /** `payment_result`'s signature check over the posted form. */
  function NotificationValid(form: Dict, password2: string, md5Hex: string -> string): (ok: bool)
    ensures ok <==> ToUpper(Get(form, "SignatureValue", ""))
                    == Digest(md5Hex, InboundParts(Get(form, "OutSum", ""), Get(form, "InvId", ""), password2),
                              ExtractShp(form))
  {
    VerifySignatureFromResult(Get(form, "OutSum", ""), Get(form, "InvId", ""), Get(form, "SignatureValue", ""),
                              password2, Some(ExtractShp(form)), md5Hex)
  }

  /**
   * Round trip: a notification whose signature is the inbound digest over its own fields,
   * in any letter case, passes the check, whatever order the Shp fields arrive in.
   */
  lemma GatewayNotificationAccepted(outSum: string, invId: string, signature: string, shp: Dict,
                                    password2: string, md5Hex: string -> string)
    requires ToUpper(signature) == Digest(md5Hex, InboundParts(outSum, invId, password2), shp)
    ensures NotificationValid(Notification(outSum, invId, signature, shp), password2, md5Hex)
  {
    var form := Notification(outSum, invId, signature, shp);
    DigestCanonical(md5Hex, InboundParts(outSum, invId, password2), ExtractShp(form), shp);
  }

  /** The redirect `create_payment` sends for a valid order. */
  function CheckoutUrl(cfg: Config, orderId: string, outSum: string, description: string, shp: Dict,
                       md5Hex: string -> string): (url: PaymentUrl)
    ensures url.endpoint == BaseUrl
    ensures |url.query| == 5 + (if cfg.testMode then 1 else 0) + |shp|
    ensures url.query[..5] == [("MerchantLogin", cfg.merchantLogin), ("OutSum", outSum), ("InvId", orderId),
                               ("Description", description),
                               ("SignatureValue",
                                Digest(md5Hex, OutboundParts(cfg.merchantLogin, outSum, orderId, cfg.password1), shp))]
    ensures cfg.testMode <==> "IsTest" in Keys(url.query)
    ensures ToMap(ExtractShp(url.query)) == ToMap(shp)
  {
    var signature := Digest(md5Hex, OutboundParts(cfg.merchantLogin, outSum, orderId, cfg.password1), shp);
    ExtractShpOfPaymentQuery(cfg.merchantLogin, outSum, orderId, description, signature, shp, cfg.testMode);
    PaymentUrl(BaseUrl, PaymentQuery(cfg.merchantLogin, outSum, orderId, description, signature, shp, cfg.testMode))
  }

  /** The global `ORDERS` dict and the handlers that use it. */
  class OrderStore {
    var orders: map<string, Order>

    /** The store's invariant: every record sits under its own id. */
    ghost predicate Valid()
      reads this
    {
      IdsMatchKeys(orders)
    }

    /** Module import: `ORDERS = {}`, then `create_test_orders()`. */
    constructor ()
      ensures orders == SeedOrders()
      ensures Valid()
    {
      orders := map[];
      new;
      CreateTestOrders();
    }

    /** `create_test_orders`: `ORDERS.update(test_orders)`. */
    method CreateTestOrders()
      requires Valid()
      modifies this
      ensures orders == old(orders) + SeedOrders()
      ensures orders.Keys == old(orders).Keys + {"1001", "1002"}
      ensures Valid()
    {
      orders := orders + SeedOrders();
    }

    /** `_get_order_data`: the stored record, or the not-found error; nothing changes. */
    function GetOrderData(orderId: string): (r: Result<Order, string>)
      reads this
      ensures r.Success? <==> orderId in orders
      ensures r.Success? ==> r.value == orders[orderId]
      ensures r.Failure? ==> r.error == "Order " + orderId + " not found"
    {
      if orderId in orders then Success(orders[orderId]) else Failure("Order " + orderId + " not found")
    }

    /** `_update_order_status`. */
    method UpdateOrderStatus(orderId: string, status: Status, data: GatewayData)
      requires Valid()
      modifies this
      ensures orders == UpdatedOrders(old(orders), orderId, status, data)
      ensures Valid()
    {
      if orderId !in orders {
        orders := orders[orderId := MinimalOrder(orderId, status)];
        return;
      }
      var order := orders[orderId];
      order := order.(status := status);
      if |data| > 0 {
        order := order.(robokassa := Some(order.robokassa.GetOr(map[]) + data));
      }
      orders := orders[orderId := order];
    }

    /**
     * `create_order`: `amount` is the parsed form amount (`None` when `Decimal` rejects it),
     * `description` the stripped description. A new record overwrites any record with that id.
     */
    method CreateOrder(orderIdField: Option<string>, amount: Option<Decimal>, description: string)
      returns (reply: Reply)
      requires Valid()
      modifies this
      ensures amount.None? ==> reply == Body(400, "Некорректная сумма") && orders == old(orders)
      ensures amount.Some? ==>
        var id := OrderIdOrDefault(orderIdField, old(orders));
        reply == Redirect(302, Index)
        && orders == old(orders)[id := NewOrder(id, amount.value, description)]
      ensures Valid()
    {
      var orderId := if HasValue(orderIdField) then orderIdField.value else NatToString(|orders| + 1000);
      if amount.None? {
        return Body(400, "Некорректная сумма");
      }
      orders := orders[orderId := NewOrder(orderId, amount.value, description)];
      reply := Redirect(302, Index);
    }

    /**
     * `create_payment`: a missing id is 400, an unknown order 404, a record without an amount
     * an unhandled `TypeError` (500), a failed validation 400 with its message; otherwise the
     * order becomes pending, whatever its status was, and the reply redirects to the gateway.
     */
    method CreatePayment(orderIdField: Option<string>, cfg: Config, md5Hex: string -> string,
                         renderDecimal: Decimal -> string)
      returns (reply: Reply)
      requires Valid()
      modifies this
      ensures !HasValue(orderIdField) ==>
        reply == Body(400, "order_id required") && orders == old(orders)
      ensures HasValue(orderIdField) && orderIdField.value !in old(orders) ==>
        reply == Body(404, "Order not found") && orders == old(orders)
      ensures HasValue(orderIdField) && orderIdField.value in old(orders)
              && old(orders)[orderIdField.value].amount.None? ==>
        reply == ServerError && orders == old(orders)
      ensures HasValue(orderIdField) && orderIdField.value in old(orders)
              && old(orders)[orderIdField.value].amount.Some? ==>
        var id := orderIdField.value;
        var order := old(orders)[id];
        var check := ValidateOrderParameters(id, order.amount.value, order.description.GetOr(""));
        (check.Fail? ==> reply == Body(400, check.error) && orders == old(orders))
        && (check.Pass? ==>
              reply == Redirect(302, Gateway(CheckoutUrl(cfg, id, renderDecimal(order.amount.value),
                                                         order.description.GetOr(""), order.shp.GetOr([]), md5Hex)))
              && orders == UpdatedOrders(old(orders), id, Pending, map[]))
      ensures Valid()
    {
      if !HasValue(orderIdField) {
        return Body(400, "order_id required");
      }
      var orderId := orderIdField.value;
      var found := GetOrderData(orderId);
      if found.Failure? {
        return Body(404, "Order not found");
      }
      var order := found.value;
      if order.amount.None? {
        return ServerError;
      }
      var amount := order.amount.value;
      var description := order.description.GetOr("");
      var shp := order.shp.GetOr([]);
      var check := ValidateOrderParameters(orderId, amount, description);
      if check.Fail? {
        return Body(400, check.error);
      }
      var url := BuildPaymentUrl(cfg.merchantLogin, cfg.password1, renderDecimal(amount), orderId, description,
                                 Some(shp), cfg.testMode, md5Hex);
      UpdateOrderStatus(orderId, Pending, map[]);
      reply := Redirect(302, Gateway(url));
    }

    /** `payment_success`: the stored record, or a transient unknown record that is not stored. */
    method PaymentSuccess(invId: string) returns (shown: Order)
      ensures invId in orders ==> shown == orders[invId]
      ensures invId !in orders ==> shown == MinimalOrder(invId, Unknown)
    {
      var found := GetOrderData(invId);
      if found.Success? {
        shown := found.value;
      } else {
        shown := MinimalOrder(invId, Unknown);
      }
    }

    /**
     * `payment_result`: a bad signature is 400 and changes nothing; a good one marks the
     * order paid, merges the echoed `OutSum` and Shp dict, and answers `"OK" + InvId`.
     */
    method PaymentResult(form: Dict, cfg: Config, md5Hex: string -> string) returns (reply: Reply)
      requires Valid()
      modifies this
      ensures !NotificationValid(form, cfg.password2, md5Hex) ==>
        reply == Body(400, "Invalid signature") && orders == old(orders)
      ensures NotificationValid(form, cfg.password2, md5Hex) ==>
        reply == Body(200, "OK" + Get(form, "InvId", ""))
        && orders == UpdatedOrders(old(orders), Get(form, "InvId", ""), Paid,
                                   ConfirmationData(Get(form, "OutSum", ""), ExtractShp(form)))
      ensures Valid()
    {
      var outSum := Get(form, "OutSum", "");
      var invId := Get(form, "InvId", "");
      var signature := Get(form, "SignatureValue", "");
      var shp := ExtractShp(form);
      var valid := VerifySignatureFromResult(outSum, invId, signature, cfg.password2, Some(shp), md5Hex);
      if !valid {
        return Body(400, "Invalid signature");
      }
      UpdateOrderStatus(invId, Paid, ConfirmationData(outSum, shp));
      reply := Body(200, "OK" + invId);
    }
  }
}
