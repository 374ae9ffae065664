/** What the components receive from the server at localhost:5162: the
    records they read, the shape of a JSON body, the outcome of a request,
    and the three rules by which components turn a body into a list. */
module Api {
  import opened Js

  /** A JSON response body as far as the components look at it: `null`, a
      bare array, or an object whose `$values` property holds an array or is
      absent. */
  datatype Body<T> = Null | List(items: seq<T>) | Record(values: Option<seq<T>>)

  /** The outcome of one request. `Ok` is a response whose status is in
      the 2xx range, with its parsed body. `NotOk` is a response with any
      other status: `serverMessage` is the `message` property of its JSON
      body, or its text where the component reads the text ("" when there is
      none), and `errorMessage` is the `message` of the error axios throws
      for it. `NoResponse` is a request that threw before any response
      arrived (network failure, unparsable body), with the error's message. */
  datatype Outcome<T> =
    | Ok(status: int, body: T)
    | NotOk(status: int, serverMessage: string, errorMessage: string)
    | NoResponse(errorMessage: string)

  /** A JSON property that may be missing, `null`, or present. */
  datatype Nullable<T> = Missing | NullValue | Present(value: T)

  /** A property as the listing endpoints return it. Property keys are
      case-sensitive: `propertyID` and `PropertyID` are different keys, and
      only the first is sent. Ids are kept as their text; None stands for a
      missing key. */
  datatype Listing = Listing(
    id: Option<string>,
    propertyID: Option<string>,
    PropertyID: Option<string>,
    propertyName: Option<string>,
    address: Option<string>,
    state: Option<string>,
    country: Option<string>,
    rentAmount: Option<real>,
    imagePath: Option<string>,
    ownerID: Option<string>)

  /** A rental application. The owner view keys it by `rentalApplicationID`,
      the tenant view by `rentalApplicationId`. */
  datatype Application = Application(
    rentalApplicationID: Option<string>,
    rentalApplicationId: Option<string>,
    propertyID: Option<string>,
    status: Option<string>)

  /** A row of a tenant's payment history. */
  datatype Payment = Payment(
    invoiceNumber: string,
    amount: string,
    paymentDate: string,
    paymentMethod: string,
    propertyName: string,
    status: Option<string>)

  /** A late-payment notification computed by the server. */
  datatype Notification = Notification(
    notificationID: string,
    propertyAddress: string,
    message: string,
    createdAt: string,
    daysLate: Nullable<int>)

  /** How the owner's application list reads a body
      (`Array.isArray(raw) ? raw : raw.$values || []`); reading `$values` of
      `null` throws, reported as None. */
  function OwnerUnwrap<T>(b: Body<T>): Option<seq<T>> {
    match b
    case Null => None
    case List(xs) => Some(xs)
    case Record(Some(vs)) => Some(vs)
    case Record(None) => Some([])
  }

  /** The outcome of the tenant's `data.$values ? data.$values : data`. */
  datatype Unwrapped<T> = Items(items: seq<T>) | NotAList | Threw

  /** How the tenant's application list reads a body: an object without
      `$values` is kept as it is, though it is not a list. */
  function TenantUnwrap<T>(b: Body<T>): Unwrapped<T> {
    match b
    case Null => Threw
    case List(xs) => Items(xs)
    case Record(Some(vs)) => Items(vs)
    case Record(None) => NotAList
  }

  /** How the owner's property list reads a body
      (`data?.$values || (Array.isArray(data) ? data : [])`): never fails. */
  function PropertiesUnwrap<T>(b: Body<T>): seq<T> {
    match b
    case Record(Some(vs)) => vs
    case List(xs) => xs
    case _ => []
  }

  /** On the two shapes the server is expected to send, a bare array or an
      object with `$values`, the three rules give the same list. */
  lemma UnwrapsAgreeOnLists<T>(b: Body<T>)
    requires b.List? || (b.Record? && b.values.Some?)
    ensures OwnerUnwrap(b) == Some(PropertiesUnwrap(b))
    ensures TenantUnwrap(b) == Items(PropertiesUnwrap(b))
    ensures b.Record? ==> PropertiesUnwrap(b) == b.values.value
    ensures b.List? ==> PropertiesUnwrap(b) == b.items
  {
  }

  /** They part ways on the other shapes: an object without `$values` is an
      empty list for the owner views but not a list at all for the tenant
      view, and `null` makes both application lists throw but gives the owner's
      property list an empty list. */
  lemma UnwrapsDisagreeOnOtherShapes<T>()
    ensures OwnerUnwrap(Body<T>.Record(None)) == Some([])
    ensures TenantUnwrap(Body<T>.Record(None)) == NotAList
    ensures PropertiesUnwrap(Body<T>.Record(None)) == []
    ensures OwnerUnwrap(Body<T>.Null) == None
    ensures TenantUnwrap(Body<T>.Null) == Threw
    ensures PropertiesUnwrap(Body<T>.Null) == []
  {
  }
}
