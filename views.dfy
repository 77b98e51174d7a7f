/**
 * The web views of the bridge (systempay/views.py), with requests reduced to
 * their GET and POST payloads and the superuser flag, and responses to the
 * outcomes that matter: which order, which notice, which status code, which
 * records and payment sources were written.
 */
module Views {
  import opened Wrappers
  import opened Payload
  import opened Oscar
  import opened Facade

  // ---------------------------------------------------------------------------
  // Finding the order a request is about
  // ---------------------------------------------------------------------------

  datatype NotFoundReason = NoOrderFound | PageOutdated

  /** Where an order lookup ends: an order, an `Http404`, or an ORM exception nobody catches. */
  datatype OrderLookup = Found(order: Order) | Http404(reason: NotFoundReason) | Raised(error: OrmError)

  function FromFetch(f: Fetch): OrderLookup {
    match f
    case Fetched(o) => Found(o)
    case FetchFailed(e) => Raised(e)
  }

  /**
   * The testing override shared by `get_object` and `get_order`: a superuser may
   * name the order by GET `order_number`, or failing that GET `order_id`. `None`
   * when the override does not apply.
   */
  function SuperuserOverride(isSuperuser: bool, get: Pairs, orders: seq<Order>): (r: Option<OrderLookup>)
    ensures r.Some? <==> isSuperuser && (HasKey(get, "order_number") || HasKey(get, "order_id"))
    ensures r.Some? ==> !r.value.Http404?
    ensures r.Some? && HasKey(get, "order_number") ==>
      (r.value.Found? ==> Some(r.value.order.number) == LastValue(get, "order_number"))
      && (r.value.Raised? <==> forall o :: o in orders ==> Some(o.number) != LastValue(get, "order_number"))
    ensures r.Some? && HasKey(get, "order_number") ==>
      r.value == FromFetch(ByNumber(orders, LastValue(get, "order_number")))
    ensures r.Some? && !HasKey(get, "order_number") ==>
      r.value == FromFetch(ById(orders, LastValue(get, "order_id").value))
    ensures r.Some? && r.value.Found? ==> r.value.order in orders
  {
    if !isSuperuser then None
    else if HasKey(get, "order_number") then Some(FromFetch(ByNumber(orders, LastValue(get, "order_number"))))
    else if HasKey(get, "order_id") then Some(FromFetch(ById(orders, LastValue(get, "order_id").value)))
    else None
  }

  /** The order reference a payment response carries: POST `vads_order_id` if POST has one, else GET's. */
  function OrderReference(get: Pairs, post: Pairs): (ref: Option<string>)
    ensures HasKey(post, "vads_order_id") ==> ref == LastValue(post, "vads_order_id")
    ensures !HasKey(post, "vads_order_id") ==> ref == LastValue(get, "vads_order_id")
  {
    if HasKey(post, "vads_order_id") then LastValue(post, "vads_order_id")
    else LastValue(get, "vads_order_id")
  }

  /** `ResponseView.get_order` */
  function GetOrder(isSuperuser: bool, get: Pairs, post: Pairs, orders: seq<Order>): (r: OrderLookup)
    ensures r.Found? ==> r.order in orders
    ensures SuperuserOverride(isSuperuser, get, orders).Some? ==> r == SuperuserOverride(isSuperuser, get, orders).value
    ensures SuperuserOverride(isSuperuser, get, orders).None? ==>
      var ref := OrderReference(get, post);
      && !r.Raised?
      && (r == Http404(NoOrderFound) <==> ref.None? || ref == Some(""))
      && (r == Http404(PageOutdated) <==> ref.Some? && ref != Some("") && forall o :: o in orders ==> o.number != ref.value)
      && (r.Found? ==> Some(r.order.number) == ref)
  {
    match SuperuserOverride(isSuperuser, get, orders)
    case Some(l) => l
    case None =>
      var ref := OrderReference(get, post);
      if ref.None? || ref == Some("") then Http404(NoOrderFound)
      else match ByNumber(orders, ref)
        case Fetched(o) => Found(o)
        case FetchFailed(_) => Http404(PageOutdated)
  }

  /** For anyone but a superuser, a POST reference makes the GET parameters irrelevant. */
  lemma PostReferenceWins(get: Pairs, get': Pairs, post: Pairs, orders: seq<Order>)
    requires HasKey(post, "vads_order_id")
    ensures GetOrder(false, get, post, orders) == GetOrder(false, get', post, orders)
  {
  }

  // ---------------------------------------------------------------------------
  // ReturnResponseView: the customer's browser comes back
  // ---------------------------------------------------------------------------

  predicate IsReturnFor(t: Txn, number: string) {
    t.mode == Return && t.orderNumber == Some(number)
  }

  /**
   * `filter(mode=MODE_RETURN, order_number=number).order_by('-date_created')[:1]`:
   * the most recently created callback record for the order, if any.
   */
  function LatestReturn(rows: seq<Txn>, number: string): (r: Option<Txn>)
    ensures r.None? <==> forall i :: 0 <= i < |rows| ==> !IsReturnFor(rows[i], number)
    ensures r.Some? ==> exists i :: 0 <= i < |rows| && rows[i] == r.value && IsReturnFor(r.value, number)
                         && forall j :: i < j < |rows| ==> !IsReturnFor(rows[j], number)
  {
    if |rows| == 0 then None
    else if IsReturnFor(rows[|rows| - 1], number) then Some(rows[|rows| - 1])
    else
      var r := LatestReturn(rows[..|rows| - 1], number);
      assert forall i :: 0 <= i < |rows| - 1 ==> rows[..|rows| - 1][i] == rows[i];
      r
  }

  /** The message shown on return. */
  datatype Notice = NoResponseYet | PaymentValidated | PaymentRefused

  /** Where `get_redirect_url` sends the customer, and the order id it leaves in the session. */
  datatype ReturnPage = Redirect(notice: Notice, checkoutOrderId: nat, url: string) | NotFound(reason: NotFoundReason) | Error(error: OrmError)

  const ThankYouUrl: string := "checkout:thank-you"

  /** The notice for the latest callback record: none yet, complete, or anything else. */
  function NoticeFor(latest: Option<Txn>, isComplete: Txn -> bool): Notice {
    match latest
    case None => NoResponseYet
    case Some(t) => if isComplete(t) then PaymentValidated else PaymentRefused
  }

  /** `ReturnResponseView.get_redirect_url` */
  function ReturnRedirectUrl(isSuperuser: bool, get: Pairs, post: Pairs, orders: seq<Order>,
                             rows: seq<Txn>, isComplete: Txn -> bool): (p: ReturnPage)
    ensures p.Redirect? <==> GetOrder(isSuperuser, get, post, orders).Found?
    ensures p.NotFound? <==> GetOrder(isSuperuser, get, post, orders).Http404?
    ensures p.NotFound? ==> p == NotFound(GetOrder(isSuperuser, get, post, orders).reason)
    ensures p.Error? <==> GetOrder(isSuperuser, get, post, orders).Raised?
    ensures p.Error? ==> p == Error(GetOrder(isSuperuser, get, post, orders).error)
    ensures p.Redirect? ==>
      var order := GetOrder(isSuperuser, get, post, orders).order;
      && p.checkoutOrderId == order.id && p.url == ThankYouUrl
      && (p.notice == NoResponseYet <==> forall i :: 0 <= i < |rows| ==> !IsReturnFor(rows[i], order.number))
      && (p.notice != NoResponseYet ==>
            exists i :: 0 <= i < |rows| && IsReturnFor(rows[i], order.number)
              && (forall j :: i < j < |rows| ==> !IsReturnFor(rows[j], order.number))
              && (p.notice == PaymentValidated <==> isComplete(rows[i])))
  {
    match GetOrder(isSuperuser, get, post, orders)
    case Found(order) =>
      var latest := LatestReturn(rows, order.number);
      Redirect(NoticeFor(latest, isComplete), order.id, ThankYouUrl)
    case Http404(reason) => NotFound(reason)
    case Raised(e) => Error(e)
  }

  /** Only the latest callback counts: a newer incomplete record for the order hides any earlier complete one. */
  lemma {:induction false} LatestReturnDecides(isSuperuser: bool, get: Pairs, post: Pairs, orders: seq<Order>,
                                               rows: seq<Txn>, t: Txn, isComplete: Txn -> bool)
    requires GetOrder(isSuperuser, get, post, orders).Found?
    requires IsReturnFor(t, GetOrder(isSuperuser, get, post, orders).order.number)
    ensures ReturnRedirectUrl(isSuperuser, get, post, orders, rows + [t], isComplete).notice
         == if isComplete(t) then PaymentValidated else PaymentRefused
  {
    var order := GetOrder(isSuperuser, get, post, orders).order;
    assert LatestReturn(rows + [t], order.number) == Some(t);
  }

  // ---------------------------------------------------------------------------
  // HandleIPN: the gateway's server-to-server notification
  // ---------------------------------------------------------------------------

  datatype IpnError = FacadeFailed(failure: Failure) | UnknownOperationType(operationType: Option<string>)

  /** How `handle_ipn` ends: normally (with or without the order found), or with an exception. */
  datatype IpnOutcome = Processed | OrderMissing(orderNumber: Option<string>) | Escaped(error: IpnError)

  /** The sources `handle_ipn` adds, the order whose payment details it saves, and how it ends. */
  datatype IpnEffect = IpnEffect(sources: seq<Source>, savedFor: Option<Order>, outcome: IpnOutcome)

  const Debit: string := "DEBIT"
  const Credit: string := "CREDIT"

  /** What `handle_ipn` does once `handle_request` has answered `handled`. */
  function IpnDecision(handled: Outcome, orders: seq<Order>): (e: IpnEffect)
    // a source is added, and the payment details saved, only for a record handle_request returned
    ensures e.sources != [] || e.savedFor.Some? ==> handled.Returned? && e.outcome == Processed
    ensures e.savedFor.Some? <==> e.sources != []
    ensures |e.sources| <= 1
    ensures handled.Failed? ==> e == IpnEffect([], None, Escaped(FacadeFailed(handled.failure)))
    ensures handled.Returned? ==>
      var t := handled.txn;
      && (ByNumber(orders, t.orderNumber).FetchFailed? ==> e == IpnEffect([], None, OrderMissing(t.orderNumber)))
      && (ByNumber(orders, t.orderNumber).Fetched? ==>
            var order := ByNumber(orders, t.orderNumber).order;
            && (t.operationType == Some(Debit) ==>
                  e == IpnEffect([Source(0, t.amount, 0, t.id)], Some(order), Processed))
            && (t.operationType == Some(Credit) ==>
                  e == IpnEffect([Source(0, 0, t.amount, t.id)], Some(order), Processed))
            && (t.operationType != Some(Debit) && t.operationType != Some(Credit) ==>
                  e == IpnEffect([], None, Escaped(UnknownOperationType(t.operationType)))))
  {
    match handled
    case Failed(f) => IpnEffect([], None, Escaped(FacadeFailed(f)))
    case Returned(t) =>
      match ByNumber(orders, t.orderNumber)
      case FetchFailed(_) => IpnEffect([], None, OrderMissing(t.orderNumber))
      case Fetched(order) =>
        if t.operationType == Some(Debit) then
          IpnEffect([Source(0, t.amount, 0, t.id)], Some(order), Processed)
        else if t.operationType == Some(Credit) then
          IpnEffect([Source(0, 0, t.amount, t.id)], Some(order), Processed)
        else
          IpnEffect([], None, Escaped(UnknownOperationType(t.operationType)))
  }

  /** A payment source is only ever added for a callback with a valid form, a valid signature and a complete record. */
  lemma SourcesOnlyForAcceptedCallbacks(rows: seq<Txn>, post: Pairs, gw: Gateway, isComplete: Txn -> bool, orders: seq<Order>)
    ensures var res := HandleSpec(rows, post, gw, isComplete);
      IpnDecision(res.1, orders).sources != [] ==>
        && GetTotalInclTax(Flatten(post)).Some?
        && gw.formIsValid(Flatten(post)) && gw.isSignatureValid(Flatten(post))
        && isComplete(res.0[|rows|])
  {
  }

  datatype HttpResponse = Ok200 | BadRequest400(error: IpnError) | ServerError500(error: IpnError)

  /** `except PaymentError` in `HandleIPN.post` catches `err`. */
  predicate CaughtAsPaymentError(err: IpnError, systemPayErrorIsPaymentError: bool) {
    err.UnknownOperationType? || (systemPayErrorIsPaymentError && IsSystemPayError(err.failure))
  }

  /**
   * `HandleIPN.post`: a normal end answers an empty 200. A caught `PaymentError`
   * answers `HttpResponseBadRequest(inst.message)`, a 400 only when the exception
   * has a `message` attribute: on Python 3 a plain `Exception` subclass has none,
   * so reading it raises `AttributeError` and the answer is a 500, as for every
   * exception that is not caught. Whether the SystemPay exceptions derive from
   * `PaymentError`, and which exceptions carry `message`, is decided in
   * systempay/exceptions.py and Oscar's payment exceptions, hence the two parameters.
   */
  function IpnResponse(o: IpnOutcome, systemPayErrorIsPaymentError: bool, hasMessage: IpnError -> bool): (h: HttpResponse)
    ensures h == Ok200 <==> !o.Escaped?
    ensures h.BadRequest400? <==>
      o.Escaped? && CaughtAsPaymentError(o.error, systemPayErrorIsPaymentError) && hasMessage(o.error)
    ensures h.ServerError500? <==>
      o.Escaped? && (!CaughtAsPaymentError(o.error, systemPayErrorIsPaymentError) || !hasMessage(o.error))
    ensures !h.Ok200? ==> o.Escaped? && h.error == o.error
  {
    match o
    case Processed => Ok200
    case OrderMissing(_) => Ok200
    case Escaped(err) =>
      if CaughtAsPaymentError(err, systemPayErrorIsPaymentError) && hasMessage(err) then BadRequest400(err)
      else ServerError500(err)
  }

  /** When no caught exception has a `message` (Oscar's `PaymentError` on Python 3), every exception ends in a 500. */
  lemma NoMessageMeansServerError(o: IpnOutcome, systemPayErrorIsPaymentError: bool, hasMessage: IpnError -> bool)
    requires forall err :: !hasMessage(err)
    ensures IpnResponse(o, systemPayErrorIsPaymentError, hasMessage) == if o.Escaped? then ServerError500(o.error) else Ok200
  {
  }

  /** The notification view; the payment sources it collects are those of the checkout's order placement. */
  class HandleIpnView {
    var paymentSources: seq<Source>
    var savedFor: seq<Order>

    constructor ()
      ensures paymentSources == [] && savedFor == []
    {
      paymentSources := [];
      savedFor := [];
    }

    /** `add_payment_source` */
    method AddPaymentSource(s: Source)
      modifies this
      ensures paymentSources == old(paymentSources) + [s] && savedFor == old(savedFor)
    {
      paymentSources := paymentSources + [s];
    }

    /** `save_payment_details(order)`: the collected sources are saved against `order`. */
    method SavePaymentDetails(order: Order)
      modifies this
      ensures savedFor == old(savedFor) + [order] && paymentSources == old(paymentSources)
    {
      savedFor := savedFor + [order];
    }

    /** `handle_ipn` */
    method HandleIpn(facade: Facade, post: Pairs, orders: seq<Order>, isComplete: Txn -> bool) returns (o: IpnOutcome)
      requires facade.table.Valid()
      modifies this, facade.table
      ensures facade.table.Valid()
      ensures var res := HandleSpec(old(facade.table.rows), post, facade.gateway, isComplete);
        var e := IpnDecision(res.1, orders);
        && facade.table.rows == res.0
        && paymentSources == old(paymentSources) + e.sources
        && savedFor == old(savedFor) + (if e.savedFor.Some? then [e.savedFor.value] else [])
        && o == e.outcome
    {
      var handled := facade.HandleRequest(post, isComplete);
      if handled.Failed? {
        return Escaped(FacadeFailed(handled.failure));
      }
      var txn := handled.txn;
      var fetched := ByNumber(orders, txn.orderNumber);
      if fetched.FetchFailed? {
        // logged and swallowed
        return OrderMissing(txn.orderNumber);
      }
      var order := fetched.order;
      if txn.operationType == Some(Debit) {
        AddPaymentSource(Source(0, txn.amount, 0, txn.id));
      } else if txn.operationType == Some(Credit) {
        AddPaymentSource(Source(0, 0, txn.amount, txn.id));
      } else {
        return Escaped(UnknownOperationType(txn.operationType));
      }
      SavePaymentDetails(order);
      return Processed;
    }

    /** `HandleIPN.post` */
    method Post(facade: Facade, post: Pairs, orders: seq<Order>, isComplete: Txn -> bool,
                systemPayErrorIsPaymentError: bool, hasMessage: IpnError -> bool) returns (h: HttpResponse)
      requires facade.table.Valid()
      modifies this, facade.table
      ensures facade.table.Valid()
      ensures var res := HandleSpec(old(facade.table.rows), post, facade.gateway, isComplete);
        var e := IpnDecision(res.1, orders);
        && facade.table.rows == res.0
        && paymentSources == old(paymentSources) + e.sources
        && savedFor == old(savedFor) + (if e.savedFor.Some? then [e.savedFor.value] else [])
        && h == IpnResponse(e.outcome, systemPayErrorIsPaymentError, hasMessage)
    {
      var o := HandleIpn(facade, post, orders, isComplete);
      h := IpnResponse(o, systemPayErrorIsPaymentError, hasMessage);
    }

    /** `HandleIPN.get`: only a superuser's GET is processed, as if its parameters had been posted. */
    method Get(isSuperuser: bool, get: Pairs, facade: Facade, orders: seq<Order>, isComplete: Txn -> bool,
               systemPayErrorIsPaymentError: bool, hasMessage: IpnError -> bool) returns (h: HttpResponse)
      requires facade.table.Valid()
      modifies this, facade.table
      ensures facade.table.Valid()
      ensures !isSuperuser ==>
        h == Ok200 && facade.table.rows == old(facade.table.rows)
        && paymentSources == old(paymentSources) && savedFor == old(savedFor)
      ensures isSuperuser ==>
        var res := HandleSpec(old(facade.table.rows), get, facade.gateway, isComplete);
        var e := IpnDecision(res.1, orders);
        && facade.table.rows == res.0
        && paymentSources == old(paymentSources) + e.sources
        && savedFor == old(savedFor) + (if e.savedFor.Some? then [e.savedFor.value] else [])
        && h == IpnResponse(e.outcome, systemPayErrorIsPaymentError, hasMessage)
    {
      if isSuperuser {
        h := Post(facade, get, orders, isComplete, systemPayErrorIsPaymentError, hasMessage);
      } else {
        h := Ok200;
      }
    }
  }

  // ---------------------------------------------------------------------------
  // SecureRedirectView: the page that posts the signed form to the gateway
  // ---------------------------------------------------------------------------

  /**
   * How `get_object` finds the order when nothing is cached: the superuser
   * override, else the id the checkout left in the session.
   */
  function RedirectLookup(isSuperuser: bool, get: Pairs, sessionOrderId: Option<nat>, orders: seq<Order>): (r: OrderLookup)
    ensures r.Found? ==> r.order in orders
    ensures r != Http404(PageOutdated)
    ensures SuperuserOverride(isSuperuser, get, orders).Some? ==> r == SuperuserOverride(isSuperuser, get, orders).value
    ensures SuperuserOverride(isSuperuser, get, orders).None? ==>
      && (r == Http404(NoOrderFound) <==> sessionOrderId.None?)
      && (r.Found? ==> Some(r.order.id) == sessionOrderId)
      && (r.Raised? <==> sessionOrderId.Some? && forall o :: o in orders ==> o.id != sessionOrderId.value)
    ensures SuperuserOverride(isSuperuser, get, orders).None? && sessionOrderId.Some? ==>
      r == FromFetch(ByPk(orders, sessionOrderId.value))
  {
    match SuperuserOverride(isSuperuser, get, orders)
    case Some(l) => l
    case None =>
      match sessionOrderId
      case None => Http404(NoOrderFound)
      case Some(pk) => FromFetch(ByPk(orders, pk))
  }

  /** Overriding with an empty `kwargs` leaves a field set as it was. */
  lemma NoOverrides(base: map<string, string>, kwargs: map<string, string>, fields: map<string, string>)
    requires kwargs == map[]
    requires fields.Keys == base.Keys + kwargs.Keys
    requires forall k :: k in fields && k !in kwargs ==> fields[k] == base[k]
    ensures fields == base
  {
  }

  datatype FormLookup = FormReady(form: SubmitForm) | NoForm(failure: OrderLookup)

  /** The page rendered for the order and its signed form, or why there is none. */
  datatype RedirectPage = Rendered(order: Order, form: SubmitForm) | NoPage(failure: OrderLookup)

  class SecureRedirectView {
    const isSuperuser: bool
    const getParams: Pairs
    const sessionOrderId: Option<nat>
    var checkoutSession: map<string, string>
    var cachedOrder: Option<Order>
    var cachedForm: Option<SubmitForm>

    constructor (isSuperuser: bool, getParams: Pairs, sessionOrderId: Option<nat>, checkoutSession: map<string, string>)
      ensures this.isSuperuser == isSuperuser && this.getParams == getParams
      ensures this.sessionOrderId == sessionOrderId && this.checkoutSession == checkoutSession
      ensures cachedOrder.None? && cachedForm.None?
    {
      this.isSuperuser := isSuperuser;
      this.getParams := getParams;
      this.sessionOrderId := sessionOrderId;
      this.checkoutSession := checkoutSession;
      cachedOrder := None;
      cachedForm := None;
    }

    /** What `get_object` answers now: the cached order, or a fresh lookup. */
    function CurrentLookup(orders: seq<Order>): OrderLookup
      reads this
    {
      if cachedOrder.Some? then Found(cachedOrder.value) else RedirectLookup(isSuperuser, getParams, sessionOrderId, orders)
    }

    /** `get_object`: after the first success, the cached order is returned without looking again. */
    method GetObject(orders: seq<Order>) returns (r: OrderLookup)
      modifies this`cachedOrder
      ensures r == old(CurrentLookup(orders))
      ensures old(cachedOrder).Some? ==> cachedOrder == old(cachedOrder)
      ensures old(cachedOrder).None? ==> cachedOrder == if r.Found? then Some(r.order) else None
    {
      if cachedOrder.Some? {
        return Found(cachedOrder.value);
      }
      r := RedirectLookup(isSuperuser, getParams, sessionOrderId, orders);
      if r.Found? {
        cachedOrder := Some(r.order);
      }
    }

    /** `get_form`: after the first success, the cached form is returned without building it again. */
    method GetForm(facade: Facade, orders: seq<Order>) returns (r: FormLookup)
      modifies this`cachedOrder, this`cachedForm
      ensures old(cachedForm).Some? ==>
        r == FormReady(old(cachedForm).value) && cachedForm == old(cachedForm) && cachedOrder == old(cachedOrder)
      ensures old(cachedForm).None? && !old(CurrentLookup(orders)).Found? ==>
        r == NoForm(old(CurrentLookup(orders))) && cachedForm.None? && cachedOrder == old(cachedOrder)
      ensures old(cachedForm).None? && old(CurrentLookup(orders)).Found? ==>
        var order := old(CurrentLookup(orders)).order;
        && cachedOrder == Some(order)
        && r == FormReady(SubmitForm(order.totalInclTax, DerivedFields(order), facade.gateway.computeSignature(DerivedFields(order))))
        && cachedForm == Some(r.form)
    {
      if cachedForm.Some? {
        return FormReady(cachedForm.value);
      }
      var lookup := GetObject(orders);
      if !lookup.Found? {
        return NoForm(lookup);
      }
      ghost var derived := DerivedFields(lookup.order);
      var form := facade.GetSubmitFormPopulatedWithOrder(lookup.order, map[]);
      NoOverrides(derived, map[], form.fields);
      cachedForm := Some(form);
      r := FormReady(form);
    }

    /**
     * `get`: records one `SUBMIT` transaction for the order and its total, renders
     * the page, then flushes the checkout session. Without an order nothing is written.
     */
    method Get(facade: Facade, orders: seq<Order>) returns (page: RedirectPage)
      requires facade.table.Valid()
      modifies this, facade.table
      ensures facade.table.Valid()
      ensures !old(CurrentLookup(orders)).Found? ==>
        page == NoPage(old(CurrentLookup(orders)))
        && facade.table.rows == old(facade.table.rows) && checkoutSession == old(checkoutSession)
        && cachedOrder == old(cachedOrder) && cachedForm == old(cachedForm)
      ensures old(CurrentLookup(orders)).Found? ==>
        var order := old(CurrentLookup(orders)).order;
        && page.Rendered? && page.order == order
        && cachedOrder == Some(order) && cachedForm == Some(page.form)
        && (old(cachedForm).Some? ==> page.form == old(cachedForm).value)
        && (old(cachedForm).None? ==>
              page.form == SubmitForm(order.totalInclTax, DerivedFields(order), facade.gateway.computeSignature(DerivedFields(order))))
        && facade.table.rows == old(facade.table.rows)
             + [NewTxn(|old(facade.table.rows)|, Submit, Some(order.number), order.totalInclTax, page.form.fields)]
        && checkoutSession == map[]
    {
      var lookup := GetObject(orders);
      if !lookup.Found? {
        return NoPage(lookup);
      }
      var order := lookup.order;
      var formLookup := GetForm(facade, orders);
      var form := formLookup.form;
      var _ := facade.SaveSubmitTxn(order.number, order.totalInclTax, form);
      page := Rendered(order, form);
      checkoutSession := map[];
    }
  }
}
