/**
 * The bridge between the shop's orders and the SystemPay gateway
 * (systempay/facade.py): the outbound field set, the transaction records it
 * keeps, and the state machine that judges an inbound callback.
 */
module Facade {
  import opened Wrappers
  import opened Payload
  import opened Oscar

  // ---------------------------------------------------------------------------
  // Transaction records
  // ---------------------------------------------------------------------------

  /** `MODE_SUBMIT`: a request we sent; `MODE_RETURN`: a callback we received. */
  datatype Mode = Submit | Return

  /**
   * A `SystemPayTransaction` row. `id` is its creation index in the table, so a
   * later record has a larger id. `rawRequest` is the flattened payload that the
   * row stores url-encoded; `amount` is in minor units.
   */
  datatype Txn = Txn(
    id: nat,
    mode: Mode,
    operationType: Option<string>,
    transId: Option<string>,
    transDate: Option<string>,
    orderNumber: Option<string>,
    amount: int,
    authResult: Option<string>,
    result: Option<string>,
    rawRequest: map<string, string>,
    errorMessage: Option<string>)

  /** The table of transaction records (`SystemPayTransaction.objects`), append-only. */
  class TxnTable {
    var rows: seq<Txn>

    /** Every row's id is its position: ids are handed out in creation order. */
    ghost predicate Valid()
      reads this
    {
      forall i :: 0 <= i < |rows| ==> rows[i].id == i
    }

    constructor ()
      ensures Valid() && rows == []
    {
      rows := [];
    }

    /** `objects.create(...)`: a new row with the next id and no error message. */
    method Create(mode: Mode, operationType: Option<string>, transId: Option<string>,
                  transDate: Option<string>, orderNumber: Option<string>, amount: int,
                  authResult: Option<string>, result: Option<string>, rawRequest: map<string, string>)
      returns (t: Txn)
      requires Valid()
      modifies this
      ensures Valid()
      ensures t == Txn(|old(rows)|, mode, operationType, transId, transDate, orderNumber,
                       amount, authResult, result, rawRequest, None)
      ensures rows == old(rows) + [t]
    {
      t := Txn(|rows|, mode, operationType, transId, transDate, orderNumber,
               amount, authResult, result, rawRequest, None);
      rows := rows + [t];
    }

    /** `txn.save()`: overwrite the row with the record's id; no row is added or removed. */
    method Save(t: Txn)
      requires Valid() && t.id < |rows|
      modifies this
      ensures Valid()
      ensures rows == old(rows)[t.id := t]
    {
      rows := rows[t.id := t];
    }
  }

  /** What `save_txn` is handed: a request's `QueryDict`, or a form's plain `dict`. */
  datatype TxnData = QueryDictData(pairs: Pairs) | DictData(fields: map<string, string>)

  /** The one-value-per-key `dict` that `save_txn` builds from its data. */
  function Fields(data: TxnData): map<string, string> {
    match data
    case QueryDictData(p) => Flatten(p)
    case DictData(m) => m
  }

  /** The record `save_txn` creates as the table's row number `id`. */
  function NewTxn(id: nat, mode: Mode, orderNumber: Option<string>, amount: int, d: map<string, string>): Txn {
    Txn(id, mode, Get(d, "vads_operation_type"), Get(d, "vads_trans_id"), Get(d, "vads_trans_date"),
        orderNumber, amount, Get(d, "vads_auth_result"), Get(d, "vads_result"), d, None)
  }

  /**
   * `for k in data: d[k] = data.get(k)`: copies a `QueryDict` into a `dict`.
   * Visiting a repeated key again writes the same value, so walking the pairs
   * does what walking the distinct keys does.
   */
  method CopyQueryDict(p: Pairs) returns (d: map<string, string>)
    ensures d == Flatten(p)
  {
    d := map[];
    var i := 0;
    while i < |p|
      invariant 0 <= i <= |p|
      invariant d.Keys == Keys(p[..i])
      invariant forall k :: k in d ==> Some(d[k]) == LastValue(p, k)
    {
      var k := p[i].0;
      assert HasKey(p, k);
      assert p[..i + 1] == p[..i] + [p[i]];
      assert Keys(p[..i + 1]) == Keys(p[..i]) + {k};
      d := d[k := LastValue(p, k).value];
      i := i + 1;
    }
    assert p[..i] == p;
    forall k | k in d ensures d[k] == Flatten(p)[k] {
      FlattenAgreesWithGet(p, k);
    }
  }

  /** The record of a callback carries, field by field, what `request.POST.get` gives for the payload. */
  lemma NotificationRecordFields(id: nat, orderNumber: Option<string>, amount: int, post: Pairs)
    ensures var t := NewTxn(id, Return, orderNumber, amount, Flatten(post));
      && t.mode == Return && t.id == id && t.orderNumber == orderNumber && t.amount == amount
      && t.operationType == LastValue(post, "vads_operation_type")
      && t.transId == LastValue(post, "vads_trans_id")
      && t.transDate == LastValue(post, "vads_trans_date")
      && t.authResult == LastValue(post, "vads_auth_result")
      && t.result == LastValue(post, "vads_result")
      && t.rawRequest == Flatten(post)
      && t.errorMessage == None
  {
    FlattenAgreesWithGet(post, "vads_operation_type");
    FlattenAgreesWithGet(post, "vads_trans_id");
    FlattenAgreesWithGet(post, "vads_trans_date");
    FlattenAgreesWithGet(post, "vads_auth_result");
    FlattenAgreesWithGet(post, "vads_result");
  }

  // ---------------------------------------------------------------------------
  // Field accessors on a form's data
  // ---------------------------------------------------------------------------

  function GetOrderNumber(d: map<string, string>): Option<string> {
    Get(d, "vads_order_id")
  }

  /** `int(form.data.get('vads_amount', '0'))`, in minor units; `None` where `int()` raises `ValueError`. */
  function GetTotalInclTax(d: map<string, string>): (r: Option<int>)
    ensures "vads_amount" !in d ==> r == Some(0)
    ensures "vads_amount" in d && d["vads_amount"] == "" ==> r == None
    ensures "vads_amount" in d ==> r == ParseInt(d["vads_amount"])
  {
    ParseInt(Get(d, "vads_amount").GetOr("0"))
  }

  function GetResult(d: map<string, string>): Option<string> {
    Get(d, "vads_result")
  }

  function GetExtraResult(d: map<string, string>): Option<string> {
    Get(d, "vads_extra_result")
  }

  function GetAuthResult(d: map<string, string>): Option<string> {
    Get(d, "vads_auth_result")
  }

  /** An amount the gateway sends as the decimal text of `n` minor units is read back as `n`. */
  lemma AmountRoundTrip(d: map<string, string>, n: int)
    requires "vads_amount" in d && d["vads_amount"] == IntString(n)
    ensures GetTotalInclTax(d) == Some(n)
  {
    IntRoundTrip(n);
  }

  /** On a callback the accessors answer what `request.POST.get` answers. */
  lemma AccessorsReadLastValue(post: Pairs)
    ensures GetOrderNumber(Flatten(post)) == LastValue(post, "vads_order_id")
    ensures GetResult(Flatten(post)) == LastValue(post, "vads_result")
    ensures GetExtraResult(Flatten(post)) == LastValue(post, "vads_extra_result")
    ensures GetAuthResult(Flatten(post)) == LastValue(post, "vads_auth_result")
  {
    FlattenAgreesWithGet(post, "vads_order_id");
    FlattenAgreesWithGet(post, "vads_result");
    FlattenAgreesWithGet(post, "vads_extra_result");
    FlattenAgreesWithGet(post, "vads_auth_result");
  }

  // ---------------------------------------------------------------------------
  // The gateway, seen only through its checks
  // ---------------------------------------------------------------------------

  /**
   * The parts of the gateway and its forms that live outside this model, as
   * functions of the form's data: `form.is_valid()`, `printable_form_errors(form)`,
   * `is_signature_valid(form)`, `form.cleaned_data['signature']` and
   * `compute_signature(form)`.
   */
  datatype Gateway = Gateway(
    formIsValid: map<string, string> -> bool,
    formErrors: map<string, string> -> string,
    isSignatureValid: map<string, string> -> bool,
    cleanedSignature: map<string, string> -> string,
    computeSignature: map<string, string> -> string)

  /** The error message recorded for a callback whose signature does not match. */
  function SignatureMessage(gw: Gateway, d: map<string, string>): string {
    "Signature not valid. Get '" + gw.cleanedSignature(d) + "' instead of '" + gw.computeSignature(d) + "'"
  }

  // ---------------------------------------------------------------------------
  // Outbound field set
  // ---------------------------------------------------------------------------

  const UserKeys: set<string> := {"vads_cust_name", "vads_cust_email", "vads_cust_id"}
  const BillingKeys: set<string> :=
    {"vads_cust_title", "vads_cust_address", "vads_cust_city", "vads_cust_state", "vads_cust_zip", "vads_cust_country"}
  const ShippingKeys: set<string> :=
    {"vads_ship_to_name", "vads_ship_to_street", "vads_ship_to_street2", "vads_ship_to_city",
     "vads_ship_to_state", "vads_ship_to_zip", "vads_ship_to_country"}

  /** The order number, the customer keys, the billing keys and the shipping keys are four disjoint groups. */
  lemma KeyGroupsDisjoint()
    ensures "vads_order_id" !in UserKeys + BillingKeys + ShippingKeys
    ensures UserKeys !! BillingKeys && UserKeys !! ShippingKeys && BillingKeys !! ShippingKeys
  {
  }

  /** The customer's fields, present exactly when the order has a user. */
  function CustomerFields(user: Option<User>): (m: map<string, string>)
    ensures m.Keys == if user.Some? then UserKeys else {}
    ensures user.Some? ==>
      m["vads_cust_name"] == user.value.fullName && m["vads_cust_email"] == user.value.email
      && m["vads_cust_id"] == user.value.pk
  {
    match user
    case None => map[]
    case Some(u) => map["vads_cust_name" := u.fullName, "vads_cust_email" := u.email, "vads_cust_id" := u.pk]
  }

  /** The billing fields, present exactly when there is a billing address; a missing part becomes `""`, the country does not. */
  function BillingFields(address: Option<Address>): (m: map<string, string>)
    ensures m.Keys == if address.Some? then BillingKeys else {}
    ensures address.Some? ==>
      var b := address.value;
      && m["vads_cust_title"] == b.title.GetOr("")
      && m["vads_cust_address"] == b.line1.GetOr("")
      && m["vads_cust_city"] == b.city.GetOr("")
      && m["vads_cust_state"] == b.state.GetOr("")
      && m["vads_cust_zip"] == b.postcode.GetOr("")
      && m["vads_cust_country"] == b.countryCode
  {
    match address
    case None => map[]
    case Some(b) =>
      map["vads_cust_title" := b.title.GetOr(""),
          "vads_cust_address" := b.line1.GetOr(""),
          "vads_cust_city" := b.city.GetOr(""),
          "vads_cust_state" := b.state.GetOr(""),
          "vads_cust_zip" := b.postcode.GetOr(""),
          "vads_cust_country" := b.countryCode]
  }

  /** The shipping fields, present exactly when there is a shipping address; the name and country get no `""` default. */
  function ShippingFields(address: Option<Address>): (m: map<string, string>)
    ensures m.Keys == if address.Some? then ShippingKeys else {}
    ensures address.Some? ==>
      var s := address.value;
      && m["vads_ship_to_name"] == s.salutation
      && m["vads_ship_to_street"] == s.line1.GetOr("")
      && m["vads_ship_to_street2"] == s.line2.GetOr("")
      && m["vads_ship_to_city"] == s.city.GetOr("")
      && m["vads_ship_to_state"] == s.state.GetOr("")
      && m["vads_ship_to_zip"] == s.postcode.GetOr("")
      && m["vads_ship_to_country"] == s.countryCode
  {
    match address
    case None => map[]
    case Some(s) =>
      map["vads_ship_to_name" := s.salutation,
          "vads_ship_to_street" := s.line1.GetOr(""),
          "vads_ship_to_street2" := s.line2.GetOr(""),
          "vads_ship_to_city" := s.city.GetOr(""),
          "vads_ship_to_state" := s.state.GetOr(""),
          "vads_ship_to_zip" := s.postcode.GetOr(""),
          "vads_ship_to_country" := s.countryCode]
  }

  /**
   * The fields derived from an order, as one map: the order number, the
   * customer when there is one, and each address that is present. The groups
   * do not overlap, so each keeps its own values.
   */
  function DerivedFields(order: Order): (m: map<string, string>)
    ensures m.Keys == {"vads_order_id"}
      + CustomerFields(order.user).Keys + BillingFields(order.billingAddress).Keys + ShippingFields(order.shippingAddress).Keys
    ensures m["vads_order_id"] == order.number
    ensures forall k :: k in CustomerFields(order.user) ==> m[k] == CustomerFields(order.user)[k]
    ensures forall k :: k in BillingFields(order.billingAddress) ==> m[k] == BillingFields(order.billingAddress)[k]
    ensures forall k :: k in ShippingFields(order.shippingAddress) ==> m[k] == ShippingFields(order.shippingAddress)[k]
  {
    var c, b, s := CustomerFields(order.user), BillingFields(order.billingAddress), ShippingFields(order.shippingAddress);
    KeyGroupsDisjoint();
    assert c.Keys !! b.Keys && c.Keys !! s.Keys && b.Keys !! s.Keys;
    assert "vads_order_id" !in c.Keys + b.Keys + s.Keys;
    map["vads_order_id" := order.number] + c + b + s
  }

  /** `if order.user: params[...] = ...`: sets the customer's fields one by one. */
  method PutCustomer(params: map<string, string>, user: Option<User>) returns (p: map<string, string>)
    ensures p == params + CustomerFields(user)
  {
    p := params;
    if user.Some? {
      var u := user.value;
      p := p["vads_cust_name" := u.fullName];
      p := p["vads_cust_email" := u.email];
      p := p["vads_cust_id" := u.pk];
    }
  }

  /** `if order.billing_address: params[...] = ...`: sets the billing fields one by one. */
  method PutBilling(params: map<string, string>, address: Option<Address>) returns (p: map<string, string>)
    ensures p == params + BillingFields(address)
  {
    p := params;
    if address.Some? {
      var b := address.value;
      p := p["vads_cust_title" := b.title.GetOr("")];
      p := p["vads_cust_address" := b.line1.GetOr("")];
      p := p["vads_cust_city" := b.city.GetOr("")];
      p := p["vads_cust_state" := b.state.GetOr("")];
      p := p["vads_cust_zip" := b.postcode.GetOr("")];
      p := p["vads_cust_country" := b.countryCode];
    }
  }

  /** `if order.shipping_address: params[...] = ...`: sets the shipping fields one by one. */
  method PutShipping(params: map<string, string>, address: Option<Address>) returns (p: map<string, string>)
    ensures p == params + ShippingFields(address)
  {
    p := params;
    if address.Some? {
      var s := address.value;
      p := p["vads_ship_to_name" := s.salutation];
      p := p["vads_ship_to_street" := s.line1.GetOr("")];
      p := p["vads_ship_to_street2" := s.line2.GetOr("")];
      p := p["vads_ship_to_city" := s.city.GetOr("")];
      p := p["vads_ship_to_state" := s.state.GetOr("")];
      p := p["vads_ship_to_zip" := s.postcode.GetOr("")];
      p := p["vads_ship_to_country" := s.countryCode];
    }
  }

  /** The submit form: the total, the field set handed to the gateway, and the signature it computed over them. */
  datatype SubmitForm = SubmitForm(totalInclTax: int, fields: map<string, string>, signature: string)

  // ---------------------------------------------------------------------------
  // Inbound callbacks
  // ---------------------------------------------------------------------------

  datatype Invalidity = IncompleteData(errors: string) | IncorrectSignature

  /** The ways `handle_request` ends without returning a record. */
  datatype Failure =
    | AmountNotInteger                          // int() on vads_amount raised ValueError
    | FormNotValid(reason: Invalidity, txnId: nat)
    | PaymentRejected(message: string)
    | ParamError(code: Option<string>)
    | ServerError(message: string)
    | NoActiveException                         // the bare `raise` for code 17: RuntimeError

  /** The exceptions declared in systempay/exceptions.py. */
  predicate IsSystemPayError(f: Failure) {
    f.FormNotValid? || f.PaymentRejected? || f.ParamError? || f.ServerError?
  }

  datatype Outcome = Returned(txn: Txn) | Failed(failure: Failure)

  /** `"%s" % value` for an optional string. */
  function PyStr(v: Option<string>): string {
    match v
    case None => "None"
    case Some(s) => s
  }

  /** The failure raised for a record that is not complete, by its result code. */
  function ClassifyIncomplete(result: Option<string>, extraResult: Option<string>): (f: Failure)
    ensures f.PaymentRejected? <==> result == Some("02") || result == Some("05")
    ensures f.ParamError? <==> result == Some("30")
    ensures f.ParamError? ==> f.code == extraResult
    ensures f.NoActiveException? <==> result == Some("17")
    ensures f.ServerError? <==> result !in {Some("02"), Some("05"), Some("30"), Some("17")}
    ensures result == Some("96") ==> f == ServerError("Technical error while processing the payment")
    ensures result !in {Some("02"), Some("05"), Some("30"), Some("17"), Some("96")} ==>
              f == ServerError("Unknown error: " + PyStr(result))
    ensures f != AmountNotInteger && !f.FormNotValid?
  {
    if result == Some("02") then PaymentRejected("The shop must contact the bank")
    else if result == Some("05") then PaymentRejected("The payment has been rejected")
    else if result == Some("30") then ParamError(extraResult)
    else if result == Some("96") then ServerError("Technical error while processing the payment")
    else if result == Some("17") then NoActiveException
    else ServerError("Unknown error: " + PyStr(result))
  }

  /**
   * `handle_request` on the table `rows` for the payload `post`: the rows
   * afterwards and the outcome. The checks run on the record already appended.
   */
  function HandleSpec(rows: seq<Txn>, post: Pairs, gw: Gateway, isComplete: Txn -> bool): (res: (seq<Txn>, Outcome))
    // the amount is read before anything is recorded: when int() fails nothing is
    ensures var d := Flatten(post);
      GetTotalInclTax(d).None? ==> res == (rows, Failed(AmountNotInteger))
    // audit first: otherwise exactly one RETURN record is appended, whatever the outcome
    ensures var d := Flatten(post);
      GetTotalInclTax(d).Some? ==>
        && |res.0| == |rows| + 1 && res.0[..|rows|] == rows
        && var t := res.0[|rows|];
        && t.id == |rows| && t.mode == Return
        && t.orderNumber == LastValue(post, "vads_order_id")
        && t.amount == GetTotalInclTax(d).value
        && t.result == LastValue(post, "vads_result")
        && t.operationType == LastValue(post, "vads_operation_type")
        && t == NewTxn(|rows|, Return, LastValue(post, "vads_order_id"), GetTotalInclTax(d).value, d)
                  .(errorMessage := t.errorMessage)
    // a record that passes both checks carries no error message
    ensures var d := Flatten(post);
      GetTotalInclTax(d).Some? && gw.formIsValid(d) && gw.isSignatureValid(d) ==>
        res.0[|rows|] == NewTxn(|rows|, Return, LastValue(post, "vads_order_id"), GetTotalInclTax(d).value, d)
    // an invalid form is recorded and fails before the signature is looked at
    ensures var d := Flatten(post);
      GetTotalInclTax(d).Some? && !gw.formIsValid(d) ==>
        && res.1 == Failed(FormNotValid(IncompleteData(gw.formErrors(d)), |rows|))
        && res.0[|rows|].errorMessage == Some(gw.formErrors(d))
    // a bad signature is recorded and fails with the same exception type, before the result is looked at
    ensures var d := Flatten(post);
      GetTotalInclTax(d).Some? && gw.formIsValid(d) && !gw.isSignatureValid(d) ==>
        && res.1 == Failed(FormNotValid(IncorrectSignature, |rows|))
        && res.0[|rows|].errorMessage == Some(SignatureMessage(gw, d))
    // past both checks, an incomplete record fails by its result code
    ensures var d := Flatten(post);
      GetTotalInclTax(d).Some? && gw.formIsValid(d) && gw.isSignatureValid(d) && !isComplete(res.0[|rows|]) ==>
        res.1 == Failed(ClassifyIncomplete(LastValue(post, "vads_result"), LastValue(post, "vads_extra_result")))
    // only a valid, correctly signed, complete record is returned, and it is the one recorded
    ensures var d := Flatten(post);
      res.1.Returned? <==>
        GetTotalInclTax(d).Some? && gw.formIsValid(d) && gw.isSignatureValid(d) && isComplete(res.0[|rows|])
    ensures res.1.Returned? ==> res.1.txn == res.0[|rows|] && res.1.txn.errorMessage.None?
  {
    var d := Flatten(post);
    NotificationRecordFields(|rows|, GetOrderNumber(d), GetTotalInclTax(d).GetOr(0), post);
    AccessorsReadLastValue(post);
    match GetTotalInclTax(d)
    case None => (rows, Failed(AmountNotInteger))
    case Some(amount) =>
      var txn := NewTxn(|rows|, Return, GetOrderNumber(d), amount, d);
      if !gw.formIsValid(d) then
        (rows + [txn.(errorMessage := Some(gw.formErrors(d)))],
         Failed(FormNotValid(IncompleteData(gw.formErrors(d)), txn.id)))
      else if !gw.isSignatureValid(d) then
        (rows + [txn.(errorMessage := Some(SignatureMessage(gw, d)))],
         Failed(FormNotValid(IncorrectSignature, txn.id)))
      else if !isComplete(txn) then
        (rows + [txn], Failed(ClassifyIncomplete(txn.result, GetExtraResult(d))))
      else
        (rows + [txn], Returned(txn))
  }

  /** When the form is invalid, neither the signature check nor completeness is consulted. */
  lemma InvalidFormIgnoresSignature(rows: seq<Txn>, post: Pairs, gw: Gateway, isComplete: Txn -> bool,
                                    isSignatureValid: map<string, string> -> bool,
                                    computeSignature: map<string, string> -> string,
                                    isComplete': Txn -> bool)
    requires !gw.formIsValid(Flatten(post))
    ensures HandleSpec(rows, post, gw, isComplete)
         == HandleSpec(rows, post, gw.(isSignatureValid := isSignatureValid, computeSignature := computeSignature), isComplete')
  {
  }

  /** When the signature is wrong, the completeness of the record (and so its result code) is not consulted. */
  lemma BadSignatureIgnoresResult(rows: seq<Txn>, post: Pairs, gw: Gateway, isComplete: Txn -> bool, isComplete': Txn -> bool)
    requires gw.formIsValid(Flatten(post)) && !gw.isSignatureValid(Flatten(post))
    ensures HandleSpec(rows, post, gw, isComplete) == HandleSpec(rows, post, gw, isComplete')
  {
  }

  // ---------------------------------------------------------------------------
  // The facade object
  // ---------------------------------------------------------------------------

  /** `Facade()`: a configured gateway over the shared table of transaction records. */
  class Facade {
    const gateway: Gateway
    const table: TxnTable

    constructor (gateway: Gateway, table: TxnTable)
      ensures this.gateway == gateway && this.table == table
    {
      this.gateway := gateway;
      this.table := table;
    }

    /**
     * `get_submit_form_populated_with_order`: fills the field set from the order
     * step by step, lets the caller's `kwargs` override it, and signs it.
     */
    method GetSubmitFormPopulatedWithOrder(order: Order, kwargs: map<string, string>) returns (form: SubmitForm)
      ensures form.totalInclTax == order.totalInclTax
      ensures form.fields.Keys == DerivedFields(order).Keys + kwargs.Keys
      ensures forall k :: k in kwargs ==> form.fields[k] == kwargs[k]
      ensures forall k :: k in form.fields && k !in kwargs ==> form.fields[k] == DerivedFields(order)[k]
      ensures form.signature == gateway.computeSignature(form.fields)
    {
      var params: map<string, string> := map[];
      params := params["vads_order_id" := order.number];
      params := PutCustomer(params, order.user);
      params := PutBilling(params, order.billingAddress);
      params := PutShipping(params, order.shippingAddress);
      assert params == DerivedFields(order);
      params := params + kwargs;
      form := SubmitForm(order.totalInclTax, params, gateway.computeSignature(params));
    }

    /** `save_txn`: flattens the data to one value per key and appends a record built from its `vads_*` fields. */
    method SaveTxn(orderNumber: Option<string>, amount: int, data: TxnData, mode: Mode) returns (t: Txn)
      requires table.Valid()
      modifies table
      ensures table.Valid()
      ensures t == NewTxn(|old(table.rows)|, mode, orderNumber, amount, Fields(data))
      ensures table.rows == old(table.rows) + [t]
    {
      var d: map<string, string>;
      match data {
        case QueryDictData(p) =>
          d := CopyQueryDict(p);
        case DictData(m) =>
          d := map[];
          d := d + m;
      }
      t := table.Create(mode, Get(d, "vads_operation_type"), Get(d, "vads_trans_id"), Get(d, "vads_trans_date"),
                        orderNumber, amount, Get(d, "vads_auth_result"), Get(d, "vads_result"), d);
    }

    /** `save_submit_txn`: records the outbound form as a `SUBMIT` row. */
    method SaveSubmitTxn(orderNumber: string, amount: int, form: SubmitForm) returns (t: Txn)
      requires table.Valid()
      modifies table
      ensures table.Valid()
      ensures t == NewTxn(|old(table.rows)|, Submit, Some(orderNumber), amount, form.fields)
      ensures table.rows == old(table.rows) + [t]
    {
      t := SaveTxn(Some(orderNumber), amount, DictData(form.fields), Submit);
    }

    /** `save_txn_notification`: records a callback's payload as a `RETURN` row. */
    method SaveTxnNotification(orderNumber: Option<string>, amount: int, post: Pairs) returns (t: Txn)
      requires table.Valid()
      modifies table
      ensures table.Valid()
      ensures t == NewTxn(|old(table.rows)|, Return, orderNumber, amount, Flatten(post))
      ensures table.rows == old(table.rows) + [t]
    {
      t := SaveTxn(orderNumber, amount, QueryDictData(post), Return);
    }

    /** `handle_request`: records the callback, then checks form, signature and result, in that order. */
    method HandleRequest(post: Pairs, isComplete: Txn -> bool) returns (out: Outcome)
      requires table.Valid()
      modifies table
      ensures table.Valid()
      ensures (table.rows, out) == HandleSpec(old(table.rows), post, gateway, isComplete)
    {
      var data := Flatten(post);
      var orderNumber := GetOrderNumber(data);
      var amount := GetTotalInclTax(data);
      if amount.None? {
        return Failed(AmountNotInteger);
      }
      var txn := SaveTxnNotification(orderNumber, amount.value, post);

      if !gateway.formIsValid(data) {
        txn := txn.(errorMessage := Some(gateway.formErrors(data)));
        table.Save(txn);
        assert (old(table.rows) + [txn.(errorMessage := None)])[txn.id := txn] == old(table.rows) + [txn];
        return Failed(FormNotValid(IncompleteData(gateway.formErrors(data)), txn.id));
      }

      if !gateway.isSignatureValid(data) {
        txn := txn.(errorMessage := Some(SignatureMessage(gateway, data)));
        table.Save(txn);
        assert (old(table.rows) + [txn.(errorMessage := None)])[txn.id := txn] == old(table.rows) + [txn];
        return Failed(FormNotValid(IncorrectSignature, txn.id));
      }

      if !isComplete(txn) {
        return Failed(ClassifyIncomplete(txn.result, GetExtraResult(data)));
      }
      return Returned(txn);
    }
  }
}
