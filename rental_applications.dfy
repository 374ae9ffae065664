/** The owner's list of applications for their properties
    (src/components/OwnerDashboard/RentalApplications.js): the load, the
    status update after an accept or reject, the status badge, and the rule
    that only pending applications offer the two decision buttons. */
module RentalApplications {
  import opened Js
  import opened Api
  import opened Screens

  /** The status the Accept button sends. */
  const AcceptStatus := "Accepted"
  /** The status the Reject button sends. */
  const RejectStatus := "Rejected"

  /** The badge classes of `getStatusClass`. */
  datatype StatusClass = StatusPending | StatusApproved | StatusRejected | StatusUnknown

  /** `getStatusClass`: a switch on the lower-cased status. */
  function ClassOf(status: Option<string>): (r: StatusClass)
    ensures r == StatusPending <==> status.Some? && Lower(status.value) == "pending"
    ensures r == StatusApproved <==> status.Some? && Lower(status.value) in {"approved", "accepted"}
    ensures r == StatusRejected <==> status.Some? && Lower(status.value) in {"rejected", "declined"}
    ensures status == None ==> r == StatusUnknown
  {
    match status
    case None => StatusUnknown
    case Some(s) =>
      var l := Lower(s);
      if l == "pending" then StatusPending
      else if l == "approved" || l == "accepted" then StatusApproved
      else if l == "rejected" || l == "declined" then StatusRejected
      else StatusUnknown
  }

  /** `app.status?.toLowerCase() === 'pending'`: the Accept and Reject
      buttons are rendered. */
  predicate OffersActions(app: Application) {
    app.status.Some? && Lower(app.status.value) == "pending"
  }

  /** The buttons show exactly when the badge says pending. */
  lemma ActionsIffPendingBadge(app: Application)
    ensures OffersActions(app) <==> ClassOf(app.status) == StatusPending
  {
  }

  /** The list after a successful status update:
      `prev.map(app => app.rentalApplicationID === id ? {...app, status} : app)`. */
  function WithStatus(apps: seq<Application>, id: Option<string>, newStatus: string): (r: seq<Application>)
    ensures |r| == |apps|
    ensures forall i :: 0 <= i < |apps| ==>
              r[i] == if apps[i].rentalApplicationID == id then apps[i].(status := Some(newStatus)) else apps[i]
  {
    if apps == [] then []
    else
      var head := if apps[0].rentalApplicationID == id then apps[0].(status := Some(newStatus)) else apps[0];
      [head] + WithStatus(apps[1..], id, newStatus)
  }

  /** The two decisions lower-cased, as the badge and the tenant's icon
      compare them. */
  lemma AcceptLower()
    ensures Lower(AcceptStatus) == "accepted"
  {
    var l := Lower(AcceptStatus);
    assert l[0] == 'a' && l[1] == 'c' && l[2] == 'c' && l[3] == 'e';
  }

  lemma RejectLower()
    ensures Lower(RejectStatus) == "rejected"
  {
    var l := Lower(RejectStatus);
    assert l[0] == 'r' && l[1] == 'e' && l[2] == 'j' && l[3] == 'e';
  }

  /** After an application is accepted or rejected it no longer offers the
      buttons and its badge shows the decision, while every other
      application keeps its buttons as they were. */
  lemma {:induction false} DecidedOffersNoActions(apps: seq<Application>, id: Option<string>, decision: string, i: nat)
    requires decision == AcceptStatus || decision == RejectStatus
    requires i < |apps|
    ensures apps[i].rentalApplicationID == id ==>
              !OffersActions(WithStatus(apps, id, decision)[i])
              && ClassOf(WithStatus(apps, id, decision)[i].status)
                 == (if decision == AcceptStatus then StatusApproved else StatusRejected)
    ensures apps[i].rentalApplicationID != id ==>
              OffersActions(WithStatus(apps, id, decision)[i]) == OffersActions(apps[i])
  {
    AcceptLower();
    RejectLower();
  }

  /** Updating a status twice with the same decision is the same as once. */
  lemma WithStatusIdempotent(apps: seq<Application>, id: Option<string>, newStatus: string)
    ensures WithStatus(WithStatus(apps, id, newStatus), id, newStatus) == WithStatus(apps, id, newStatus)
  {
  }

  /** The component's state; `error` is "" for none. */
  class OwnerApplicationsView {
    var applications: seq<Application>
    var loading: bool
    var error: string

    constructor ()
      ensures applications == [] && loading && error == ""
    {
      applications := [];
      loading := true;
      error := "";
    }

    /** The load on mount. Without a token nothing is requested and an
        error is shown. Otherwise the body is unwrapped (an array as it is,
        else its `$values`, else []); a `null` body or a failed request
        shows an error. `requested` tells whether a request was made. */
    method Load(token: string, reply: Outcome<Body<Application>>) returns (requested: bool)
      modifies this
      ensures requested == Truthy(token)
      ensures !loading
      ensures !Truthy(token) ==>
                applications == old(applications) && error == "Unauthorized. Please login again."
      ensures Truthy(token) && reply.Ok? && OwnerUnwrap(reply.body).Some? ==>
                applications == OwnerUnwrap(reply.body).value && error == old(error)
      ensures Truthy(token) && !(reply.Ok? && OwnerUnwrap(reply.body).Some?) ==>
                applications == old(applications) && error == "Failed to load applications."
    {
      if !Truthy(token) {
        error := "Unauthorized. Please login again.";
        loading := false;
        return false;
      }
      requested := true;
      if reply.Ok? && OwnerUnwrap(reply.body).Some? {
        applications := OwnerUnwrap(reply.body).value;
      } else {
        error := "Failed to load applications.";
      }
      loading := false;
    }

    /** `handleStatusUpdate`: when the PUT succeeds, the applications whose
        id equals `id` take the new status and nothing else changes; when it
        fails the list is left as it was. */
    method HandleStatusUpdate(id: Option<string>, newStatus: string, reply: Outcome<()>)
      modifies this
      ensures applications == if reply.Ok? then WithStatus(old(applications), id, newStatus) else old(applications)
      ensures loading == old(loading) && error == old(error)
    {
      if reply.Ok? {
        applications := WithStatus(applications, id, newStatus);
      }
    }

    /** What the view renders: the spinner, the error, the empty message,
        or the cards. */
    function Rendered(): (r: Screen<Application>)
      reads this
      ensures r.ListOf? ==> !loading && error == "" && r.items == applications
      ensures r.ErrorMessage? ==> !loading && r.text == error
    {
      ListScreen(loading, error, applications)
    }
  }
}
