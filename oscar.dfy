/**
 * The e-commerce framework's entities that the bridge reads (orders, their
 * customer and addresses) or creates (payment sources), and the ORM lookups
 * `Order.objects.get(...)` it performs on the table of orders.
 */
module Oscar {
  import opened Wrappers
  import opened Payload

  /** The customer account of an order; `pk` is carried as the text it is sent as. */
  datatype User = User(pk: string, fullName: string, email: string)

  /** A billing or shipping address; the optional parts may be missing (`None`) or blank. */
  datatype Address = Address(
    title: Option<string>,
    salutation: string,
    line1: Option<string>,
    line2: Option<string>,
    city: Option<string>,
    state: Option<string>,
    postcode: Option<string>,
    countryCode: string)

  /** An order; `totalInclTax` is in minor currency units. */
  datatype Order = Order(
    id: nat,
    number: string,
    totalInclTax: int,
    user: Option<User>,
    billingAddress: Option<Address>,
    shippingAddress: Option<Address>)

  /**
   * A payment source of type `systempay`, in minor units. `transaction` is the id
   * of the transaction record its currency and reference come from.
   */
  datatype Source = Source(amountAllocated: int, amountDebited: int, amountRefunded: int, transaction: nat)

  /** What `Order.objects.get(...)` raises when it does not return an order. */
  datatype OrmError = DoesNotExist | ValueError

  datatype Fetch = Fetched(order: Order) | FetchFailed(error: OrmError)

  /** The first order that `matches` accepts (the table's unique constraints make it the only one). */
  function FindFirst(orders: seq<Order>, matches: Order -> bool): (f: Fetch)
    ensures f.Fetched? ==> f.order in orders && matches(f.order)
    ensures f.Fetched? || f == FetchFailed(DoesNotExist)
    ensures f.FetchFailed? <==> forall o :: o in orders ==> !matches(o)
  {
    if |orders| == 0 then FetchFailed(DoesNotExist)
    else if matches(orders[0]) then Fetched(orders[0])
    else FindFirst(orders[1..], matches)
  }

  /** `Order.objects.get(number=n)`; `number=None` matches no order. */
  function ByNumber(orders: seq<Order>, n: Option<string>): (f: Fetch)
    ensures f.Fetched? ==> f.order in orders && Some(f.order.number) == n
    ensures f.FetchFailed? ==> f.error == DoesNotExist
    ensures f.FetchFailed? <==> forall o :: o in orders ==> Some(o.number) != n
  {
    FindFirst(orders, (o: Order) => Some(o.number) == n)
  }

  /** `Order.objects.get(pk=pk)` */
  function ByPk(orders: seq<Order>, pk: nat): (f: Fetch)
    ensures f.Fetched? ==> f.order in orders && f.order.id == pk
    ensures f.FetchFailed? ==> f.error == DoesNotExist
    ensures f.FetchFailed? <==> forall o :: o in orders ==> o.id != pk
  {
    FindFirst(orders, (o: Order) => o.id == pk)
  }

  /** `Order.objects.get(id=text)`: the id field converts `text` with `int()` first and raises `ValueError` if it cannot. */
  function ById(orders: seq<Order>, text: string): (f: Fetch)
    ensures ParseInt(text).None? <==> f == FetchFailed(ValueError)
    ensures f.Fetched? ==> f.order in orders && ParseInt(text) == Some(f.order.id)
    ensures f == FetchFailed(DoesNotExist) <==> ParseInt(text).Some? && forall o :: o in orders ==> o.id != ParseInt(text).value
  {
    match ParseInt(text)
    case None => FetchFailed(ValueError)
    case Some(n) => if n < 0 then FetchFailed(DoesNotExist) else ByPk(orders, n)
  }
}
