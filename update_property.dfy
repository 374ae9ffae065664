/** The owner's edit-property form (src/components/OwnerDashboard/UpdateProperty.js):
    the session check, the merge of the fetched record into the form, the
    change handler, and the submit handler that validates and sends the PUT. */
module UpdateProperty {
  import opened Js
  import opened Claims
  import opened Api
  import opened PropertyForm
  import AddProperty

  /** The form's `ownerID`: a number, or None for the initial '' and for
      `NaN` (both falsy). */
  type OwnerRef = Option<int>

  /** `!!ownerID`: 0, NaN and '' are falsy. */
  predicate OwnerTruthy(o: OwnerRef) {
    o.Some? && o.value != 0
  }

  /** The status `verifySession` sets: any token that decodes is accepted. */
  function SessionStatus(token: string, decoded: Decoded): (r: AuthStatus)
    ensures r != Checking
    ensures r == Authenticated <==> Truthy(token) && decoded.Decodes?
  {
    if Truthy(token) && decoded.Decodes? then Authenticated else Failed
  }

  /** The edit form is laxer than the add form: a decodable token that has
      expired, or that names no owner, is refused when adding a property but
      accepted when editing one. */
  lemma LaxerThanAddForm(token: string, p: Payload, now: int)
    requires Truthy(token)
    requires Expired(p, now) || !AddProperty.HasOwnerClaim(p)
    ensures AddProperty.CheckSession(token, Decodes(p), now).Refused?
    ensures SessionStatus(token, Decodes(p)) == Authenticated
  {
  }

  /** Whatever the add form accepts, the edit form accepts too. */
  lemma AddSessionImpliesUpdateSession(token: string, decoded: Decoded, now: int)
    requires AddProperty.CheckSession(token, decoded, now) == AddProperty.Pass
    ensures SessionStatus(token, decoded) == Authenticated
  {
  }

  /** `prev.ownerID || propertyData.ownerID`: the owner id kept when the
      fetched record is merged into the form. */
  function MergeOwner(prev: OwnerRef, fetched: OwnerRef): (r: OwnerRef)
    ensures OwnerTruthy(prev) ==> r == prev
    ensures !OwnerTruthy(prev) ==> r == fetched
    ensures OwnerTruthy(r) <==> OwnerTruthy(prev) || OwnerTruthy(fetched)
  {
    if OwnerTruthy(prev) then prev else fetched
  }

  /** `response.status === 200 || response.status === 204`: the only
      answers the form reports as a successful update. */
  predicate UpdateSucceeded(reply: Outcome<()>) {
    reply.Ok? && (reply.status == 200 || reply.status == 204)
  }

  /** A property as GET /api/property/{id} returns it: the draft fields,
      the owner id, and every other key of the record (`propertyID` among
      them), each with its value as text. */
  datatype FetchedProperty = FetchedProperty(draft: Draft, ownerID: OwnerRef, otherKeys: map<string, string>)

  /** The body of the PUT: the whole form, owner id and the fetched
      record's other keys included. */
  datatype PropertyUpdate = PropertyUpdate(draft: Draft, ownerID: OwnerRef, otherKeys: map<string, string>)

  class UpdatePropertyForm {
    var formData: Draft
    var ownerID: OwnerRef
    /** The keys of `formData` that no input edits, as the fetch spread
        them in. */
    var otherKeys: map<string, string>
    var errors: map<Field, string>
    var authStatus: AuthStatus
    var imagePreview: Option<string>
    var tokenRemoved: bool

    ghost predicate Valid()
      reads this
    {
      forall f :: f in errors ==> Truthy(errors[f])
    }

    constructor ()
      ensures Valid()
      ensures formData == EmptyDraft && ownerID == None && otherKeys == map[] && errors == map[]
      ensures authStatus == Checking && imagePreview == None && !tokenRemoved
    {
      formData := EmptyDraft;
      ownerID := None;
      otherKeys := map[];
      errors := map[];
      authStatus := Checking;
      imagePreview := None;
      tokenRemoved := false;
    }

    /** `verifySession`: a missing token fails; a token that does not decode
        fails and is removed; any decodable token is accepted, with no
        expiry or claim check, and the form takes the owner id that
        `parseInt` read from the nameidentifier claim (`parsedClaim`). */
    method VerifySession(token: string, decoded: Decoded, parsedClaim: OwnerRef)
      requires Valid()
      modifies this
      ensures Valid()
      ensures authStatus == SessionStatus(token, decoded)
      ensures tokenRemoved == (old(tokenRemoved) || (Truthy(token) && decoded.DecodeError?))
      ensures ownerID == (if Truthy(token) && decoded.Decodes? then parsedClaim else old(ownerID))
      ensures formData == old(formData) && otherKeys == old(otherKeys)
      ensures errors == old(errors) && imagePreview == old(imagePreview)
    {
      if !Truthy(token) {
        authStatus := Failed;
        return;
      }
      match decoded
      case Decodes(_) =>
        ownerID := parsedClaim;
        authStatus := Authenticated;
      case DecodeError(_) =>
        tokenRemoved := true;
        authStatus := Failed;
    }

    /** `fetchPropertyDetails`: on success the form becomes the fetched
        record, all its keys included (`{...propertyData, ownerID}` keeps
        none of the earlier form's), keeping an earlier truthy owner id, and the preview shows
        the fetched image path; on any failure the session is marked failed
        and the form is left as it was. */
    method FetchPropertyDetails(reply: Outcome<FetchedProperty>)
      requires Valid()
      modifies this
      ensures Valid()
      ensures reply.Ok? ==>
                formData == reply.body.draft && otherKeys == reply.body.otherKeys
                && ownerID == MergeOwner(old(ownerID), reply.body.ownerID)
                && imagePreview == Some(reply.body.draft.imagePath)
                && authStatus == old(authStatus)
      ensures !reply.Ok? ==>
                formData == old(formData) && ownerID == old(ownerID) && otherKeys == old(otherKeys)
                && imagePreview == old(imagePreview) && authStatus == Failed
      ensures errors == old(errors) && tokenRemoved == old(tokenRemoved)
    {
      match reply
      case Ok(_, propertyData) =>
        ownerID := MergeOwner(ownerID, propertyData.ownerID);
        formData := propertyData.draft;
        otherKeys := propertyData.otherKeys;
        imagePreview := Some(Or(propertyData.draft.imagePath, ""));
      case _ =>
        authStatus := Failed;
    }

    /** `handleChange`: only the named field changes, only its error is
        cleared, and any change of the image path, even to "", becomes the
        preview. */
    method HandleChange(f: Field, value: string, checked: bool)
      requires Valid()
      modifies this
      ensures Valid()
      ensures formData == Set(old(formData), f, value, checked)
      ensures errors == old(errors) - {f}
      ensures imagePreview == if f == ImagePath then Some(value) else old(imagePreview)
      ensures ownerID == old(ownerID) && otherKeys == old(otherKeys)
      ensures authStatus == old(authStatus) && tokenRemoved == old(tokenRemoved)
    {
      formData := Set(formData, f, value, checked);
      if f == ImagePath {
        imagePreview := Some(value);
      }
      if f in errors && Truthy(errors[f]) {
        errors := errors - {f};
      }
    }

    /** `handleSubmit`: `errors` becomes exactly the errors of the current
        draft and any error blocks the PUT; otherwise the whole form is sent,
        and the update is reported successful only for status 200 or 204. */
    method HandleSubmit(rent: Option<real>, reply: Outcome<()>)
      returns (request: Option<PropertyUpdate>, succeeded: bool)
      requires Valid()
      modifies this
      ensures Valid()
      ensures forall f :: f in errors <==> Invalid(formData, rent, f)
      ensures forall f :: f in errors ==> errors[f] == Message(UpdateWording, f)
      ensures request.Some? <==> errors == map[]
      ensures request.Some? ==> request.value == PropertyUpdate(formData, ownerID, otherKeys)
      ensures succeeded <==> request.Some? && UpdateSucceeded(reply)
      ensures formData == old(formData) && ownerID == old(ownerID) && otherKeys == old(otherKeys)
      ensures authStatus == old(authStatus) && imagePreview == old(imagePreview) && tokenRemoved == old(tokenRemoved)
    {
      var newErrors := CollectErrors(formData, rent, UpdateWording);
      errors := newErrors;
      if |newErrors| > 0 {
        return None, false;
      }
      request := Some(PropertyUpdate(formData, ownerID, otherKeys));
      succeeded := reply.Ok? && (reply.status == 200 || reply.status == 204);
    }
  }

  /** Fetching a record and submitting it unedited sends the record back
      whole: its fields, its owner id (the form's own is still falsy) and
      every other key it came with, `propertyID` included. */
  method FetchedRecordSentBack(record: FetchedProperty, rent: Option<real>, reply: Outcome<()>)
    returns (request: Option<PropertyUpdate>)
    requires forall f :: !Invalid(record.draft, rent, f)
    ensures request == Some(PropertyUpdate(record.draft, record.ownerID, record.otherKeys))
  {
    var form := new UpdatePropertyForm();
    form.FetchPropertyDetails(Ok(200, record));
    var succeeded;
    request, succeeded := form.HandleSubmit(rent, reply);
  }

  /** A 201 Created, or any other 2xx besides 200 and 204, is not reported
      as a successful update, though the server accepted the request. */
  lemma OtherSuccessStatusesNotReported(status: int, body: ())
    requires 200 <= status < 300 && status != 200 && status != 204
    ensures !UpdateSucceeded(Ok(status, body))
  {
  }
}
