/** The tenant's list of their own applications
    (src/components/TenantDashboard/MyApplications.js): the load, the status
    icon and label, the lease link, and the order in which the page decides
    what to show. */
module MyApplications {
  import opened Js
  import opened Api
  import opened Screens
  import RentalApplications

  datatype Icon = CheckIcon | TimesIcon | ClockIcon

  /** `getStatusIcon`: a check for approved, a cross for rejected, and the
      clock for pending and for every other value. */
  function IconOf(status: Option<string>): (r: Icon)
    ensures r == CheckIcon <==> status.Some? && Lower(status.value) == "approved"
    ensures r == TimesIcon <==> status.Some? && Lower(status.value) == "rejected"
  {
    if status.Some? && Lower(status.value) == "approved" then CheckIcon
    else if status.Some? && Lower(status.value) == "rejected" then TimesIcon
    else ClockIcon
  }

  /** `app.status?.charAt(0).toUpperCase() + app.status?.slice(1)`: the
      first character upper-cased followed by the rest. A missing status
      adds `undefined` to `undefined`, which renders as "NaN". */
  function Label(status: Option<string>): (r: string)
    ensures status.None? ==> r == "NaN"
    ensures status.Some? ==> |r| == |status.value|
    ensures status.Some? && status.value != "" ==>
              r[0] == UpperChar(status.value[0]) && r[1..] == status.value[1..]
  {
    match status
    case None => "NaN"
    case Some(s) => if s == "" then "" else Upper(s[..1]) + s[1..]
  }

  /** A status as the server may send it in lower case, "approved" say,
      is shown with its first letter capitalised and the rest unchanged. */
  lemma LabelOfLowerStatus(s: string)
    requires s != "" && 'a' <= s[0] <= 'z'
    ensures Label(Some(s))[0] == (s[0] as int - 32) as char
    ensures Label(Some(s))[1..] == s[1..]
  {
  }

  /** `app.status?.toLowerCase() === 'approved'`: the "Fill Lease Agreement"
      link is shown. */
  predicate ShowsLeaseLink(app: Application) {
    app.status.Some? && Lower(app.status.value) == "approved"
  }

  /** The lease link's target. */
  function LeasePath(app: Application): (r: string)
    ensures StartsWith(r, "/tenant/lease/")
    ensures r[|"/tenant/lease/"|..] == Template(app.rentalApplicationId)
  {
    "/tenant/lease/" + Template(app.rentalApplicationId)
  }

  /** The link shows exactly when the icon is the check. */
  lemma LeaseLinkIffCheckIcon(app: Application)
    ensures ShowsLeaseLink(app) <==> IconOf(app.status) == CheckIcon
  {
  }

  /** The two views disagree on what the owner sends. An application the
      owner accepted carries "Accepted": the owner's badge shows it approved,
      but the tenant sees the pending clock and no lease link. Only the
      literal "approved" (in any case), which the owner view never sends,
      reaches the lease link. */
  lemma AcceptedNeverReachesLease(app: Application)
    requires app.status == Some(RentalApplications.AcceptStatus)
    ensures RentalApplications.ClassOf(app.status) == RentalApplications.StatusApproved
    ensures IconOf(app.status) == ClockIcon
    ensures !ShowsLeaseLink(app)
  {
    RentalApplications.AcceptLower();
  }

  /** The rejection the owner sends is seen alike by both views. */
  lemma RejectedAgrees(app: Application)
    requires app.status == Some(RentalApplications.RejectStatus)
    ensures RentalApplications.ClassOf(app.status) == RentalApplications.StatusRejected
    ensures IconOf(app.status) == TimesIcon
    ensures !ShowsLeaseLink(app)
  {
    RentalApplications.RejectLower();
  }

  /** The message shown when the request or the reading of its body
      throws. */
  const GenericError := "Error fetching applications."

  /** The state the load leaves: the applications (which may not be a
      list) and the error ("" for none). */
  datatype Loaded = Loaded(applications: Unwrapped<Application>, error: string)

  /** The load on mount (`fetch`): an ok response sets the list to `$values`
      if present and otherwise to the body as received; a response that is
      not ok shows its text; a request that throws, or a `null` body, shows
      a generic error. */
  function Load(reply: Outcome<Body<Application>>): (r: Loaded)
    ensures Truthy(r.error) <==> !(reply.Ok? && !TenantUnwrap(reply.body).Threw?)
    ensures reply.Ok? && reply.body.Record? && reply.body.values.Some? ==>
              r == Loaded(Items(reply.body.values.value), "")
    ensures reply.Ok? && reply.body.List? ==> r == Loaded(Items(reply.body.items), "")
    ensures reply.Ok? && reply.body == Record(None) ==> r == Loaded(NotAList, "")
    ensures reply.NotOk? ==> r == Loaded(Items([]), "Failed to fetch applications: " + reply.serverMessage)
    ensures reply.NoResponse? || (reply.Ok? && reply.body.Null?) ==> r == Loaded(Items([]), GenericError)
  {
    match reply
    case Ok(_, data) =>
      (match TenantUnwrap(data)
       case Threw => Loaded(Items([]), GenericError)
       case other => Loaded(other, ""))
    case NotOk(_, text, _) => Loaded(Items([]), "Failed to fetch applications: " + text)
    case NoResponse(_) => Loaded(Items([]), GenericError)
  }

  /** What the page renders, in the order the component tests: loading,
      then the error, then the empty message, then the list. An object
      without `$values` has no `length`, passes the empty test, and makes
      `applications.map` throw: None. */
  function Rendered(loading: bool, error: string, apps: Unwrapped<Application>): (r: Option<Screen<Application>>)
    ensures loading ==> r == Some(Loading)
    ensures !loading && Truthy(error) ==> r == Some(ErrorMessage(error))
    ensures r == None <==> !loading && !Truthy(error) && !apps.Items?
    ensures apps.Items? ==> r == Some(ListScreen(loading, error, apps.items))
  {
    if loading then Some(Loading)
    else if Truthy(error) then Some(ErrorMessage(error))
    else match apps
      case Items(xs) => Some(ListScreen(loading, error, xs))
      case _ => None
  }
}
