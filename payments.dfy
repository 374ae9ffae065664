/** The tenant's payments page (src/components/TenantDashboard/Payments.js):
    the history, every row tagged "Paid", the late-payment notifications,
    and the page's rendering order. */
module Payments {
  import opened Js
  import opened Api

  const Paid := "Paid"
  const FetchFailed := "Failed to fetch data."

  /** `history.map(payment => ({...payment, status: 'Paid'}))`. */
  function TagPaid(history: seq<Payment>): (r: seq<Payment>)
    ensures |r| == |history|
    ensures forall i :: 0 <= i < |r| ==> r[i].status == Some(Paid)
    ensures forall i :: 0 <= i < |r| ==> r[i] == history[i].(status := Some(Paid))
  {
    if history == [] then []
    else [history[0].(status := Some(Paid))] + TagPaid(history[1..])
  }

  /** Tagging commutes with concatenation: a page of history tagged in
      parts reads the same as tagged whole. */
  lemma TagPaidAppend(a: seq<Payment>, b: seq<Payment>)
    ensures TagPaid(a + b) == TagPaid(a) + TagPaid(b)
  {
    var whole, parts := TagPaid(a + b), TagPaid(a) + TagPaid(b);
    forall i | 0 <= i < |whole|
      ensures whole[i] == parts[i]
    {
      if i >= |a| {
        assert (a + b)[i] == b[i - |a|];
      }
    }
  }

  /** Tagging twice is tagging once. */
  lemma TagPaidIdempotent(history: seq<Payment>)
    ensures TagPaid(TagPaid(history)) == TagPaid(history)
  {
    var once := TagPaid(history);
    var twice := TagPaid(once);
    assert forall i :: 0 <= i < |twice| ==> twice[i] == once[i];
  }

  /** `err.response?.data?.message || 'Failed to fetch data.'`. */
  function ErrorText(reply: Outcome<()>): (r: string)
    ensures Truthy(r)
    ensures reply.NotOk? && Truthy(reply.serverMessage) ==> r == reply.serverMessage
    ensures !(reply.NotOk? && Truthy(reply.serverMessage)) ==> r == FetchFailed
  {
    if reply.NotOk? then Or(reply.serverMessage, FetchFailed) else FetchFailed
  }

  /** The state the load leaves. */
  datatype Loaded = Loaded(history: seq<Payment>, notifications: Body<Notification>, error: string)

  /** The failure of a request, without its body. */
  function Failure<T>(reply: Outcome<T>): Outcome<()>
    requires !reply.Ok?
  {
    match reply
    case NotOk(s, m, e) => NotOk(s, m, e)
    case NoResponse(e) => NoResponse(e)
  }

  /** The load on mount. The history comes first: its `$values` are tagged
      "Paid"; a body without `$values` throws, which the handler reports
      with the generic message. Only then are the notifications requested,
      and their failure is reported though the history is already set. */
  function Load(historyReply: Outcome<Body<Payment>>, notificationsReply: Outcome<Body<Notification>>): (r: Loaded)
    ensures historyReply.Ok? && historyReply.body.Record? && historyReply.body.values.Some? ==>
              r.history == TagPaid(historyReply.body.values.value)
    ensures !(historyReply.Ok? && historyReply.body.Record? && historyReply.body.values.Some?) ==>
              r.history == [] && Truthy(r.error)
    ensures Truthy(r.error) <==> !(historyReply.Ok? && historyReply.body.Record?
                                   && historyReply.body.values.Some? && notificationsReply.Ok?)
    ensures historyReply.Ok? && historyReply.body.Record? && historyReply.body.values.Some? ==>
              (notificationsReply.Ok? ==> r.notifications == notificationsReply.body && r.error == "")
              && (!notificationsReply.Ok? ==>
                    r.notifications == List([]) && r.error == ErrorText(Failure(notificationsReply)))
    ensures historyReply.Ok? && !(historyReply.body.Record? && historyReply.body.values.Some?) ==>
              r.notifications == List([]) && r.error == FetchFailed
    ensures !historyReply.Ok? ==> r.notifications == List([]) && r.error == ErrorText(Failure(historyReply))
  {
    match historyReply
    case Ok(_, body) =>
      if body.Record? && body.values.Some? then
        var history := TagPaid(body.values.value);
        match notificationsReply
        case Ok(_, notes) => Loaded(history, notes, "")
        case _ => Loaded(history, List([]), ErrorText(Failure(notificationsReply)))
      else Loaded([], List([]), FetchFailed)
    case _ => Loaded([], List([]), ErrorText(Failure(historyReply)))
  }

  /** `notification.daysLate !== undefined`: the Days Late line is shown
      for any present value, `null` included. */
  predicate ShowsDaysLate(n: Notification) {
    !n.daysLate.Missing?
  }

  /** The test is against `undefined` only: a notification whose
      `daysLate` is `null` still shows the Days Late line, with nothing
      after the label, while one without the field hides it. The lines of
      a note are not part of `Page`, so this states the JSX guard on its
      own. */
  lemma NullDaysLateShown(n: Notification)
    ensures n.daysLate.NullValue? ==> ShowsDaysLate(n)
    ensures n.daysLate.Missing? ==> !ShowsDaysLate(n)
    ensures n.daysLate.Present? ==> ShowsDaysLate(n)
  {
  }

  datatype HistoryView = Table(rows: seq<Payment>) | NoHistory
  datatype NotesView = NotesList(items: seq<Notification>) | NoNotes | NotesThrow

  datatype Page = LoadingPage | ErrorPage(text: string) | Shown(history: HistoryView, notes: NotesView)

  /** `lateNotifications.length > 0 ? list : message`: a body that is not an
      array has no length and shows the message, and `null` throws. */
  function NotesShown(notes: Body<Notification>): (r: NotesView)
    ensures r.NotesList? <==> notes.List? && notes.items != []
    ensures r.NotesList? ==> r.items == notes.items
    ensures r == NotesThrow <==> notes.Null?
  {
    match notes
    case List(xs) => if xs != [] then NotesList(xs) else NoNotes
    case Record(_) => NoNotes
    case Null => NotesThrow
  }

  /** What the page renders: loading before the error, then the history
      table (or the "No payment history" message when it is empty) and the
      notifications. */
  function Rendered(loading: bool, state: Loaded): (r: Page)
    ensures loading ==> r == LoadingPage
    ensures !loading && Truthy(state.error) ==> r == ErrorPage(state.error)
    ensures r.Shown? <==> !loading && !Truthy(state.error)
    ensures r.Shown? ==> (r.history == NoHistory <==> state.history == [])
    ensures r.Shown? && r.history.Table? ==> r.history.rows == state.history
    ensures r.Shown? ==> r.notes == NotesShown(state.notifications)
  {
    if loading then LoadingPage
    else if Truthy(state.error) then ErrorPage(state.error)
    else Shown(if |state.history| > 0 then Table(state.history) else NoHistory, NotesShown(state.notifications))
  }

  /** Every row the page shows is marked "Paid". */
  lemma {:induction false} ShownRowsArePaid(historyReply: Outcome<Body<Payment>>,
                                            notificationsReply: Outcome<Body<Notification>>, i: nat)
    requires Rendered(false, Load(historyReply, notificationsReply)).Shown?
    requires Rendered(false, Load(historyReply, notificationsReply)).history.Table?
    requires i < |Rendered(false, Load(historyReply, notificationsReply)).history.rows|
    ensures Rendered(false, Load(historyReply, notificationsReply)).history.rows[i].status == Some(Paid)
  {
  }
}
