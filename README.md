# SystemPay bridge for an Oscar shop: a Dafny model

This project models the callback handling and record keeping of the SystemPay
payment bridge (`systempay/facade.py` and `systempay/views.py`):

- how the outbound `vads_*` field set is derived from an order, with the caller's
  overrides applied last;
- how every exchange is stored as a `SystemPayTransaction` record (`SUBMIT` for
  the form we send, `RETURN` for a callback we receive);
- the state machine `handle_request` runs on an inbound callback. It records the
  callback, then checks the form, then the signature, then the result code. It
  returns the record only when the payment is complete;
- what the views do with that outcome:
  - the notification endpoint adds a payment source for a `DEBIT` or `CREDIT`;
  - the browser-return page picks a notice from the latest `RETURN` record;
  - order lookup follows a fixed precedence;
  - the redirect page caches its order and form.

Modules:

- `Wrappers`: `Option`, which stands for Python's `None`-or-a-value.
- `Payload`: a Django `QueryDict` as ordered pairs, `get` as "last value for the
  key", its one-value-per-key `dict`, and Python's `int()` on a string.
- `Oscar`: orders, users, addresses, payment sources, and `Order.objects.get`
  by number, id and primary key.
- `Facade`: the transaction table (a class over a `seq`), `save_txn` and its
  copy loop, the field builders, the result classifier, and `handle_request`.
  `handle_request` is proved against the specification function `HandleSpec`.
- `Views`: `ResponseView.get_order`, `ReturnResponseView.get_redirect_url`,
  `HandleIPN` (a class holding the collected payment sources), and
  `SecureRedirectView` (a class holding the `_order` / `_form` caches).

Things given as parameters, because their code is not part of this model:

- The gateway, the forms and `utils.printable_form_errors` are the `Gateway`
  datatype. It holds the form's `is_valid()`, `printable_form_errors`, the
  gateway's `is_signature_valid` and `compute_signature`, and the form's cleaned
  signature as functions of the form data.
- `SystemPayTransaction.is_complete` (`models.py`) is an `isComplete: Txn -> bool`
  parameter.
- `SystemPayTransaction.OPERATION_TYPE_DEBIT` / `OPERATION_TYPE_CREDIT` (`models.py`)
  are assumed to be the texts `"DEBIT"` and `"CREDIT"`, the constants `Views.Debit`
  and `Views.Credit`.
- `systempay/exceptions.py` is not part of this model. Whether the SystemPay
  exceptions derive from Oscar's `PaymentError` is the flag
  `systemPayErrorIsPaymentError` of the IPN response. Whether a caught exception
  has the `message` attribute that `HandleIPN.post` reads is the parameter
  `hasMessage: IpnError -> bool`.
- `gateway.get_return_form(**d)` is assumed to give a form whose `data` is `d`
  itself: the accessors and the form checks read the flattened payload directly.
- The ORM is a `seq` of records. A record's `id` is its creation index, so
  "ordered by `-date_created`" means "last in the sequence". The order table is
  a `seq<Order>`.

Behaviour of the code worth knowing:

- The audit record is not written for every payload. `get_total_incl_tax`
  calls `int()` on `vads_amount` before `save_txn_notification` runs. If that
  value is not an integer (for example an empty string), `ValueError` is raised
  and nothing is recorded (`AmountNotInteger`).
- A bad signature raises `SystemPayFormNotValid`, the same exception as an invalid
  form. There is no separate signature exception (`FormNotValid(IncorrectSignature, _)`).
- Result code `17` runs a bare `raise` with no exception being handled. That is a
  `RuntimeError` (`NoActiveException`), which no view catches.
- No duplicate notification is suppressed. Every complete `DEBIT`/`CREDIT`
  notification for a known order adds one payment source.

## Model

| member | source | states |
|---|---|---|
| `Payload.LastValue` | systempay/facade.py:100 | `request.POST.get(k)` is present exactly when the payload has key `k`, and then it is the value of the last pair with that key |
| `Payload.Flatten` | systempay/facade.py:95-100 | the return form's data has exactly the payload's keys; each maps to the value of its last occurrence |
| `Payload.FlattenAgreesWithGet` | systempay/facade.py:100 | the flattened payload agrees with `QueryDict.get` on presence and value, for every key |
| `Payload.ParseInt` | systempay/facade.py:39 | `int()` accepts an optional sign followed by digits and fails otherwise; the sign decides the sign of the result |
| `Payload.IntRoundTrip` | systempay/facade.py:39 | reading back the decimal text of any integer gives that integer |
| `Oscar.ByNumber` | systempay/views.py:167-170 | `Order.objects.get(number=n)` returns an order with that number, or `DoesNotExist` exactly when no order has it |
| `Oscar.ById` | systempay/views.py:153-155 | `get(id=text)` raises `ValueError` exactly when `int(text)` fails; otherwise it returns the order with that id, or `DoesNotExist` when there is none |
| `Oscar.ByPk` | systempay/views.py:64-66 | `get(pk=pk)` returns the order with that primary key, or `DoesNotExist` exactly when there is none |
| `Facade.TxnTable.Create` | systempay/facade.py:195-205 | appends one row with the next creation index and no error message, and keeps ids equal to positions |
| `Facade.TxnTable.Save` | systempay/facade.py:126-127 | overwrites only the row with the record's id; no row is added or removed |
| `Facade.CopyQueryDict` | systempay/facade.py:188-191 | the `for k in data: d[k] = data.get(k)` loop yields exactly the flattened payload |
| `Facade.NotificationRecordFields` | systempay/facade.py:195-204 | a callback record's mode is `RETURN`, and `operation_type`, `trans_id`, `trans_date`, `auth_result` and `result` equal the last `vads_*` value in the payload, or `None` when the key is missing |
| `Facade.GetTotalInclTax` | systempay/facade.py:38-39 | a missing `vads_amount` reads as 0; a present one reads as `int()` of its text, so it fails exactly when the text is not an optional sign followed by digits (the empty text included) |
| `Facade.AmountRoundTrip` | systempay/facade.py:38-39 | an amount sent as the decimal text of `n` minor units is read as `n` |
| `Facade.AccessorsReadLastValue` | systempay/facade.py:35-48 | on a callback, the accessors `Facade.GetOrderNumber` (`get_order_number`), `Facade.GetResult` (`get_result`), `Facade.GetExtraResult` (`get_extra_result`) and `Facade.GetAuthResult` (`get_auth_result`) return what `request.POST.get` returns |
| `Facade.KeyGroupsDisjoint` | systempay/facade.py:58-84 | the order key, the customer keys, the billing keys and the shipping keys never overlap |
| `Facade.CustomerFields` | systempay/facade.py:62-65 | the three customer keys are present exactly when the order has a user, holding name, email and id |
| `Facade.BillingFields` | systempay/facade.py:67-74 | the six billing keys are present exactly when there is a billing address; a missing title, line, city, state or zip becomes `""`; the country is copied as is |
| `Facade.ShippingFields` | systempay/facade.py:76-84 | the seven shipping keys are present exactly when there is a shipping address; a missing line, line 2, city, state or zip becomes `""`; the name and country get no default |
| `Facade.DerivedFields` | systempay/facade.py:58-84 | the derived field set has exactly the order key plus the present groups' keys; `vads_order_id` is the order number; each group keeps its own values |
| `Facade.PutCustomer` | systempay/facade.py:62-65 | setting the customer keys one by one gives the previous fields overlaid with the customer group |
| `Facade.PutBilling` | systempay/facade.py:67-74 | setting the billing keys one by one gives the previous fields overlaid with the billing group |
| `Facade.PutShipping` | systempay/facade.py:76-84 | setting the shipping keys one by one gives the previous fields overlaid with the shipping group |
| `Facade.Facade.GetSubmitFormPopulatedWithOrder` | systempay/facade.py:50-93 | the form's keys are the derived keys plus the `kwargs` keys; every `kwargs` key holds the `kwargs` value; every other key holds its derived value; the total is the order's; the signature is the gateway's over the final fields |
| `Facade.ClassifyIncomplete` | systempay/facade.py:146-164 | codes `02`/`05` give `PaymentRejected`; `30` gives `ParamError` carrying `vads_extra_result`; `17` gives the no-active-exception failure; `96` gives the technical `ServerError`; any other code, `None` included, gives `ServerError("Unknown error: <code>")`; never a form or amount failure |
| `Facade.HandleSpec` | systempay/facade.py:102-166 | when the amount parses, exactly one `RETURN` record is appended whatever the outcome, holding the payload's fields as `save_txn` builds them, with no error message when form and signature pass; when it does not, nothing is; an invalid form records the form errors and fails with `FormNotValid`; a valid form with a bad signature records the signature message and fails with `FormNotValid`; past both, an incomplete record fails by its result code; the record is returned if and only if form, signature and completeness all hold |
| `Facade.InvalidFormIgnoresSignature` | systempay/facade.py:125-133 | with an invalid form, the outcome and the table do not depend on the signature check, the computed signature or completeness |
| `Facade.BadSignatureIgnoresResult` | systempay/facade.py:135-144 | with a bad signature, the outcome and the table do not depend on completeness, so the result code is never classified |
| `Facade.Facade.SaveTxn` | systempay/facade.py:182-205 | appends exactly one record with the given mode, order number and amount, built from the one-value-per-key data |
| `Facade.Facade.SaveSubmitTxn` | systempay/facade.py:168-173 | appends one `SUBMIT` record built from the form's fields |
| `Facade.Facade.SaveTxnNotification` | systempay/facade.py:175-180 | appends one `RETURN` record built from the flattened payload |
| `Facade.Facade.HandleRequest` | systempay/facade.py:102-166 | the table afterwards and the outcome are those of `HandleSpec`; the record is appended first and the error message is attached to that record by saving it |
| `Views.SuperuserOverride` | systempay/views.py:148-155 | the override applies only to a superuser with GET `order_number` or `order_id`; `order_number` is looked up first, and `DoesNotExist` is raised exactly when no order has that number; otherwise the result is `get(id=order_id)`: `ValueError` for text that is not an integer, else the order with that id or `DoesNotExist`; never a 404 |
| `Views.OrderReference` | systempay/views.py:158-162 | POST `vads_order_id` is used whenever POST has that key, GET's otherwise |
| `Views.GetOrder` | systempay/views.py:145-172 | the override wins when it applies; otherwise a missing or empty reference gives 404 "no order", an unknown number gives 404 "outdated", and a found order has the referenced number |
| `Views.PostReferenceWins` | systempay/views.py:159-162 | for a non-superuser whose POST carries `vads_order_id`, the GET parameters do not change the result |
| `Views.LatestReturn` | systempay/views.py:180-183 | picks the most recently created `RETURN` record for the order; it is absent exactly when there is none |
| `Views.ReturnRedirectUrl` | systempay/views.py:176-206 | redirects exactly when the order is found, storing its id; a 404 carries the lookup's reason and an ORM error its exception and targeting the thank-you page; no record gives the "no response yet" notice; otherwise the latest record decides success (complete) or rejection |
| `Views.LatestReturnDecides` | systempay/views.py:180-204 | once a newer `RETURN` record for the order is added, only that record decides the notice, whatever came before |
| `Views.IpnDecision` | systempay/views.py:255-291 | a handler failure adds nothing and escapes; an unknown order is swallowed with nothing added; `DEBIT` adds one source debiting the amount; `CREDIT` adds one refunding it; any other type escapes as an unknown operation type with no source and no saved details |
| `Views.SourcesOnlyForAcceptedCallbacks` | systempay/views.py:256-277 | a payment source is added only for a callback whose form and signature are valid and whose record is complete |
| `Views.IpnResponse` | systempay/views.py:240-245 | a normal end of `handle_ipn` (order found or not) answers an empty 200; an escaping `PaymentError` answers 400 exactly when it has a `message` attribute; reading a missing `message` raises, so such a `PaymentError` and every uncaught exception end in a 500 |
| `Views.NoMessageMeansServerError` | systempay/views.py:243-244 | when no caught exception has `message` (a plain `Exception` subclass on Python 3), every exception escaping `handle_ipn`, including an unknown operation type, ends in a 500 |
| `Views.HandleIpnView.HandleIpn` | systempay/views.py:247-291 | the table, the collected sources, the saved payment details and the outcome are those of `HandleSpec` followed by `IpnDecision` |
| `Views.HandleIpnView.Post` | systempay/views.py:240-245 | the response is `IpnResponse` of the `handle_ipn` outcome, with the same effects |
| `Views.HandleIpnView.Get` | systempay/views.py:230-238 | a non-superuser GET answers 200 and changes nothing; a superuser GET is handled as a POST of its parameters |
| `Views.RedirectLookup` | systempay/views.py:54-68 | the superuser override wins when it applies; otherwise the session's `checkout_order_id` picks the order by `get(pk=...)`; without one the result is a 404; an unknown id raises `DoesNotExist` |
| `Views.SecureRedirectView.GetObject` | systempay/views.py:50-71 | with a cached order, that order is returned and the cache is kept; otherwise the lookup result is returned and cached when it is an order |
| `Views.SecureRedirectView.GetForm` | systempay/views.py:73-78 | with a cached form, that form is returned and nothing changes; otherwise the form is built from the looked-up order with no overrides and cached |
| `Views.SecureRedirectView.Get` | systempay/views.py:80-89 | without an order, nothing is written and the caches are left as they were; with one, exactly one `SUBMIT` record with the order number and total is appended, built from the form's fields; a form not cached before is the one `get_submit_form_populated_with_order(order)` builds (the order's derived fields, signed); the page is rendered with the cached order and form, and the checkout session is emptied |

## Left out

- The signature algorithm, form field validation and `is_complete`: their code
  is in `gateway.py` and `models.py`, which are not part of this model. They are
  parameters.
- What `gateway.get_submit_form` adds to the field set (site id, amount, currency,
  action mode) and where `sign` puts the signature: `gateway.py` is not part of
  this model. The submit form carries the merged `params` and the signature
  computed over them.
- Decimal amounts: `D(int(...)/100.0)` goes through a binary float. The model
  keeps amounts as integer minor units throughout. An amount too large for a
  float (over about 308 digits) makes the division raise `OverflowError` before
  anything is recorded; `HandleSpec` records such a callback instead.
- `raw_request = urlencode(d)`: the record keeps `d` itself; the serialisation is
  not modelled.
- Payload.ParseInt: weaker than Python's `int()`, which also accepts
  surrounding whitespace, underscores between digits and non-ASCII digits.
- Customer id: `vads_cust_id` is `user.pk`, an integer in the source; the model
  carries it as the text it is sent as.
- Views.IpnResponse: the text of the 400 body `inst.message` is not modelled. Only
  whether it exists is modelled, and that decides between 400 and 500.
- Views.ReturnRedirectUrl: the URL is the route name `checkout:thank-you`, not
  the `reverse`d path. The user-facing message texts (translated strings) are
  reduced to three notices.
- Views.LatestReturn: records created at the same instant are ordered by
  creation index. The database's ordering of equal `date_created` values is not
  modelled.
- Process configuration (`Facade.__init__` reading settings, currency 978),
  logging, `SourceType.objects.get_or_create`, and each source's currency and
  reference: these are configuration or `models.py` properties, not decision logic.
- Exception message texts for `FormNotValid` are carried as structured values
  (the reason and the record id), not as the formatted translated strings.
- Django plumbing: request and response objects, templates, `messages`,
  `reverse`, translation, and `CheckoutSessionMixin` beyond emptying the checkout
  session.
- `CancelResponseView` and `PlaceOrderView`: external side effects and
  checkout-framework overrides with no decision logic of their own.
- Concurrency and per-order locking: the source has none, and the model adds none.
