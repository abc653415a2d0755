# Robokassa checkout: order store and signature protocol

A Dafny model of a small shop that takes payments through the Robokassa gateway. It has two parts.

- **The signature protocol** (`robokassa_client.py`, modules `Strings`, `Dicts` and `RobokassaClient`).
  - The outbound signing string is `login:OutSum:InvId:password1`. The inbound one is `OutSum:InvId:password2`.
  - Either string may be followed by `:` and the `Shp_key=value` block, sorted by key.
  - The string is hashed with MD5 and the hex digest is upper-cased.
  - The outbound redirect query is assembled in the order the source fills its dict.
  - An inbound digest is accepted in any letter case.
- **The order store** (`app.py`, module `App`).
  - The global `ORDERS` dict is the field `orders` of the class `App.OrderStore`.
  - Its methods cover the seeding, the lookup, the single status-update helper and the decision logic of the four handlers: create order, create payment, result notification and success page.
  - Each handler takes already-extracted form fields and returns the reply it would send.

Modelling choices:
- A Python `dict[str, str]` is a `Dicts.Dict`: a sequence of `(key, value)` pairs with distinct keys, in insertion order. Order matters for the query and for what `items()` yields. `Dicts.ToMap` forgets the order. "Depends only on the contents" is stated as `ToMap` equality.
- `sorted(d.items())` is an insertion sort, `Dicts.SortByKey`. It uses Python's code-point order on `str`, `Strings.Less`.
- MD5 is the function parameter `md5Hex`, standing for `hashlib.md5(s.encode("utf-8")).hexdigest()`. Nothing is assumed about it.
- `str(Decimal)` is the function parameter `renderDecimal`. Configuration values (merchant login, passwords, test flag) are an `App.Config` value.
- A `Decimal` amount is exact: `coefficient * 10^exponent`.
- `ORDERS` is a `map<string, Order>`. A record's missing fields are `None`.

Behaviour of the code that the model states as it is:
- `create_payment` sets `pending` with no guard, so a `paid` order moves back to `pending`. `create_order` overwrites an existing record with the same id, paid or not.
- In `create_payment`, a record without an amount raises `TypeError` at `Decimal(None)`. That is the record a blind confirmation inserts. Only `ValueError` is caught there, so the `TypeError` escapes as a 500 reply (`ServerError`).
- A blind confirmation (unknown id) drops the gateway data. Repeating it stores the data, so confirmation is idempotent only for known ids (`UpdateIdempotentForKnownId`, `BlindUpdateRepeatedStoresData`).
- Right after seeding, the default id `str(len(ORDERS) + 1000)` is `"1002"`, the id of a seeded order. `create_order` without an id then overwrites that order (`DefaultIdCollidesAfterSeeding`).

## Model

| member | source | states |
|---|---|---|
| Strings.Less | robokassa_client.py:11 | Python's `<` on `str`, which `sorted` uses on the keys: `a` is a proper prefix of `b`, or at the first differing position `a` has the smaller code point |
| Strings.StartsWithIsPrefixThenRest | app.py:143 | `k.startswith(p)` holds exactly when `k` is `p` followed by some rest |
| Strings.Join | robokassa_client.py:12 | `sep.join(parts)`, here and at lines 30 and 57: `""` for no parts, the part itself for one part, and a string beginning with the first part otherwise; with `JoinAppend` this determines the join of every list |
| Strings.JoinAppend | robokassa_client.py:55-57 | joining one more part appends the separator and that part |
| Strings.ToUpper | robokassa_client.py:59 | `s.upper()`, here and at line 6: same length; each ASCII lower-case letter becomes its capital, every other character is kept, and no lower-case letter remains |
| Strings.NatToString | app.py:71 | `str(n)`: a non-empty string of decimal digits, no leading zero, whose value is `n` |
| Dicts.Get | app.py:140-142 | `form.get(k, default)`: the value under `k` in the dict's contents, or the default when `k` is absent |
| Dicts.Put | robokassa_client.py:43-46 | `d[k] = v`: keys gain `k`; the entries are those of `d` with another key, plus `(k, v)`; a new key is appended at the end; an existing key keeps its position with the new value and every other entry stays where it was |
| Dicts.SortByKey | robokassa_client.py:11 | `sorted(d.items())`: a permutation of the entries (same multiset) with keys strictly ascending |
| Dicts.SortByKeyCanonical | robokassa_client.py:11 | two dicts with the same contents sort to the same sequence, whatever their insertion order |
| Dicts.SortedUnique | robokassa_client.py:11 | a set of entries has at most one strictly ascending arrangement |
| RobokassaClient.Md5Upper | robokassa_client.py:5-6 | the digest has the hex digest's length, contains no lower-case letter, and upper-casing it again changes nothing |
| RobokassaClient.ShpEntries | robokassa_client.py:12 | the list comprehension, here and at line 29, `[f"Shp_{k}={v}" ...]`: one `Shp_k=v` string per entry, at the entry's own position |
| RobokassaClient.FormatShpPart | robokassa_client.py:8-12 | the Shp block is `""` exactly when the dict is empty, and otherwise starts with `Shp_` |
| RobokassaClient.FormatShpPartIsSortedJoin | robokassa_client.py:9-12 | for every dict, the block is the `Shp_k=v` entries joined by `:` in any strictly ascending key order of its entries (the empty join for the empty dict) |
| RobokassaClient.FormatShpPartCanonical | robokassa_client.py:11-12 | the block depends only on the dict's contents, not on insertion order |
| RobokassaClient.SigningString | robokassa_client.py:53-57 | the hashed string, here and at lines 26-30, is the `:`-join of the fixed parts, with the Shp block joined as one more part exactly when the dict is non-empty; for an empty dict it is the joined parts alone |
| RobokassaClient.Digest | robokassa_client.py:58 | `_md5_upper` of the signing string, here and at line 32: an upper-case string (no lower-case letter, unchanged by `upper()`) as long as the hex digest |
| RobokassaClient.ShpOrEmpty | robokassa_client.py:23-24 | `shp=None` is treated as the empty dict |
| RobokassaClient.DigestCanonical | robokassa_client.py:26-32 | the signature over a tuple does not depend on the insertion order of the Shp dict |
| RobokassaClient.OutboundIsLoginThenInbound | robokassa_client.py:26-30 | the outbound signing string is the merchant login, `:`, and the inbound-shaped string over the same secret: both directions use one canonicalisation, and the inbound one has no login |
| RobokassaClient.InlineSigningString | robokassa_client.py:26-30 | the inline string of `build_payment_url` is `login:OutSum:InvId:password1`, followed by `:` and the Shp block only for a non-empty dict, i.e. the block `_format_shp_part` produces |
| RobokassaClient.PaymentSignature | robokassa_client.py:26-32 | the step-by-step signing string, hashed, is the outbound digest |
| RobokassaClient.FiveParams | robokassa_client.py:35-41 | the literal parameter dict has five keys, none `IsTest` and none with the `Shp_` prefix |
| RobokassaClient.FixedParams | robokassa_client.py:35-43 | the five parameters in order, then `IsTest=1` exactly in test mode |
| RobokassaClient.TestFlagAssignment | robokassa_client.py:42-43 | assigning `params["IsTest"]` in test mode appends it to the five parameters |
| RobokassaClient.ShpParams | robokassa_client.py:45-46 | one `(f"Shp_{k}", v)` parameter per Shp entry, in the dict's order; distinct dict keys give distinct parameter names |
| RobokassaClient.FixedThenShpUnique | robokassa_client.py:45-46 | no `Shp_` parameter collides with a fixed one or with another `Shp_` parameter |
| RobokassaClient.FixedThenShp | robokassa_client.py:42-46 | the query's keys are the fixed keys plus the `Shp_` keys, and no `Shp_` key is `IsTest` |
| RobokassaClient.AddShpParams | robokassa_client.py:45-46 | the loop appends one `Shp_k=v` per entry, in the dict's own order |
| RobokassaClient.PaymentQuery | robokassa_client.py:35-46 | the query has 5 + (1 in test mode) + \|shp\| entries: `MerchantLogin`, `OutSum`, `InvId`, `Description`, `SignatureValue` first, `IsTest=1` iff test mode, then one `Shp_k=v` per entry |
| RobokassaClient.BuildPaymentUrl | robokassa_client.py:14-48 | the URL is the fixed endpoint with that query, signed with the outbound digest over the very `OutSum` and `InvId` it sends |
| RobokassaClient.VerifySignatureFromResult | robokassa_client.py:50-59 | true iff the received signature, upper-cased, equals the digest of `OutSum:InvId:password2` plus `:`+block only for a non-empty block |
| RobokassaClient.VerifyAcceptsDigestInAnyCase | robokassa_client.py:58-59 | round trip: the inbound digest, sent back in any letter case with the same fields, is accepted |
| RobokassaClient.VerifyCanonical | robokassa_client.py:53-57 | verification does not depend on the order the Shp fields arrive in |
| RobokassaClient.VerifyNoneIsEmpty | robokassa_client.py:50-52 | `shp=None` and `shp={}` verify alike |
| RobokassaClient.ExampleShpPart | robokassa_client.py:8-12 | the Shp dict of seeded order `1001`, `{user:1, product:basic}`, gives `Shp_product=basic:Shp_user=1` because `product` sorts first |
| RobokassaClient.ExampleSigningString | robokassa_client.py:26-30 | order `1001` under the default login `demo` and password1 `password1` (config.py:8-9), with `str(Decimal("100.00"))` being `100.00`, signs `demo:100.00:1001:password1:Shp_product=basic:Shp_user=1` |
| App.SeedOrderSigningString | app.py:18-24 | seeded order `1001` carries the worked example's Shp dict, and with the default login and password1 (config.py:8-9) and its amount rendered `100.00` its outbound signing string is `demo:100.00:1001:password1:Shp_product=basic:Shp_user=1` |
| App.NewOrder | app.py:78-84 | the record `create_order` writes: the given id, amount and description, status `created`, Shp contents `{user: demo}`, no gateway data |
| App.MinimalOrder | app.py:56 | the record inserted for an unknown id: only `id` and `status`, every other field absent |
| App.SeedOrders | app.py:16-32 | the seeds are orders `1001` and `1002`, each under its own id, both `created` |
| App.OrderStore.constructor | app.py:13-35 | at start the store holds exactly the seeded orders |
| App.OrderStore.CreateTestOrders | app.py:16-33 | `ORDERS.update(test_orders)`: the seeds are added or overwrite records with the same ids; other records stay |
| App.OrderStore.GetOrderData | app.py:41-45 | success exactly for a stored id, with the stored record; otherwise the error `Order <id> not found`; it only reads |
| App.ValidateOrderParameters | app.py:47-51 | the amount check comes first (`Amount must be positive` iff amount <= 0), then the description (`Description required` iff positive amount and empty description), otherwise it passes |
| App.UpdatedOrders | app.py:53-60 | an unknown id gets exactly `{id, status}` and the data is dropped; a known id keeps id, amount, description and shp, gets the new status, and has non-empty data merged into its gateway map; no other record changes |
| App.OrderStore.UpdateOrderStatus | app.py:53-60 | the store after the call is `UpdatedOrders` of the store before |
| App.UpdatePreservesIds | app.py:53-60 | every record stays under its own id |
| App.UpdateIdempotentForKnownId | app.py:58-60 | repeating the same update on a known id changes nothing more |
| App.BlindUpdateRepeatedStoresData | app.py:54-60 | on an unknown id the first update drops the gateway data and the repeat stores it |
| App.ConfirmationData | app.py:150 | the merged data is exactly `OutSum` and `shp` |
| App.RepeatedConfirmation | app.py:150 | a repeated confirmation keeps the order `paid`, refreshes `OutSum` and `shp` with the latest values, and keeps the other gateway entries |
| App.OrderIdOrDefault | app.py:71 | the given id when non-empty, else `str(len(ORDERS) + 1000)` |
| App.DefaultIdCollidesAfterSeeding | app.py:71 | right after seeding the default id is `1002`, an existing order |
| App.ExtractShp | app.py:143 | the extracted dict has key `k` iff the form has `Shp_k`, and entry `(k, v)` iff the form has `(Shp_k, v)` |
| App.ShpParamsRoundTrip | app.py:143 | `Shp_` parameters behind prefix-free ones extract back to the original dict's contents |
| App.ExtractShpOfPaymentQuery | app.py:143 | round trip: the Shp fields of the outbound query, echoed back, extract to the order's Shp dict |
| App.Notification | app.py:140-143 | the gateway's notification form yields back its `OutSum`, `InvId`, `SignatureValue` and Shp dict |
| App.NotificationValid | app.py:140-146 | the handler's check is the inbound digest comparison over the posted fields |
| App.GatewayNotificationAccepted | app.py:140-147 | a notification signed with the inbound digest over its own fields, in any letter case, passes |
| App.CheckoutUrl | app.py:109-118 | the gateway redirect carries the login, `str(amount)`, the order id, the description and their outbound signature; `IsTest` iff test mode; its Shp fields extract back to the order's dict |
| App.OrderStore.CreateOrder | app.py:67-85 | an unparsable amount gives 400 and no change; otherwise a `created` record with shp `{user: demo}` is written under the given or default id, overwriting any other, and the reply redirects to the index |
| App.OrderStore.CreatePayment | app.py:87-120 | a missing id gives 400 and an unknown order 404; a record without an amount is a 500; a failed validation gives 400 with its message; none of these changes anything; otherwise a redirect to the checkout URL, with the order set to `pending` whatever its status |
| App.OrderStore.PaymentSuccess | app.py:124-131 | the stored record, or the transient `{id, status: unknown}` record, which is not stored |
| App.OrderStore.PaymentResult | app.py:138-151 | a bad signature gives 400 `Invalid signature` and no change; a good one gives `OK`+InvId, sets the order to `paid` and merges `OutSum` and the extracted Shp dict |

## Left out

- Flask routing, `request` parsing, `render_template`, `redirect`/`url_for`, logging and `app.run`: HTTP and UI plumbing. The index, fail and static demo pages only render templates.
- `config.py`: environment and `.env` loading. The settings are an `App.Config` argument; only its defaults (config.py:8-9) appear, in the worked example.
- MD5 (RFC 1321) and UTF-8 encoding: `md5Hex` is an uninterpreted parameter. Tamper detection and the false result of a cross-direction check rest on collision resistance, so they are not stated.
- `urlencode` percent-encoding and the `"?"` join: the URL is the endpoint plus the ordered query pairs. `params["IsTest"] = 1` is stored as the string `"1"` that `urlencode` produces.
- `Decimal(...)` parsing and `.strip()` of the form fields: `CreateOrder` takes the parsed amount (`None` when parsing fails) and the stripped description with its default applied. `str(Decimal)` is the `renderDecimal` parameter. Decimal special values (`NaN`, `Infinity`) are not modelled.
- The generic `except Exception` 500 path around `build_payment_url` (app.py:121-122): in the model that call cannot fail.
- `request.form` is a dict of the first value per key. A repeated form key (a multi-dict) is not modelled.
- Strings.ToUpper: upper-cases ASCII letters only; Python's `str.upper` also maps other letters, some to several characters.
- Python dict truthiness of a record (`if not order`): records are never empty dicts, so the model tests presence.
- The insertion order of `ORDERS` (it only affects how the index page lists orders): the store is a `map`.
- Shared mutable record objects between `ORDERS` and the rendered page: a record is a value.
- Atomicity and concurrent requests: the source has no concurrency control.
