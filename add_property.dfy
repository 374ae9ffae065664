/** The owner's add-property form (src/components/OwnerDashboard/AddProperty.js):
    the session check run when the form mounts, the change handler, and the
    submit handler that validates the draft and builds the POST body. */
module AddProperty {
  import opened Js
  import opened Claims
  import opened Api
  import opened PropertyForm

  /** Why `verifySession` refuses a session: there is no stored token, the
      token cannot be decoded, it has expired, or it names no owner. Only
      the first leaves the stored token in place. */
  datatype Refusal = NoToken | Undecodable | TokenExpired | MissingClaims

  datatype SessionCheck = Pass | Refused(reason: Refusal)

  /** The payload names an owner: the nameidentifier claim or the `ownerId`
      claim is truthy. */
  predicate HasOwnerClaim(p: Payload) {
    Truthy(Claim(p, NameIdentifier)) || Truthy(Claim(p, "ownerId"))
  }

  /** The checks of `verifySession`, in their order: a stored token, a
      payload that decodes, an `exp` that has not passed, an owner claim. */
  function CheckSession(token: string, decoded: Decoded, now: int): (r: SessionCheck)
    ensures r == Refused(NoToken) <==> !Truthy(token)
    ensures r == Pass <==> Truthy(token) && decoded.Decodes? && !Expired(decoded.payload, now) && HasOwnerClaim(decoded.payload)
    ensures r == Refused(Undecodable) <==> Truthy(token) && decoded.DecodeError?
    ensures r == Refused(TokenExpired) <==> Truthy(token) && decoded.Decodes? && Expired(decoded.payload, now)
    ensures r == Refused(MissingClaims) ==> decoded.Decodes? && !HasOwnerClaim(decoded.payload)
  {
    if !Truthy(token) then Refused(NoToken)
    else match decoded
      case DecodeError(_) => Refused(Undecodable)
      case Decodes(p) =>
        if Expired(p, now) then Refused(TokenExpired)
        else if !HasOwnerClaim(p) then Refused(MissingClaims)
        else Pass
  }

  /** A payload without an `exp` claim (or with a falsy one) is never refused
      as expired: the session then turns only on the owner claim. */
  lemma NoExpOnlyClaimsMatter(token: string, p: Payload, now: int)
    requires Truthy(token) && (p.exp == None || p.exp == Some(0))
    ensures CheckSession(token, Decodes(p), now) == if HasOwnerClaim(p) then Pass else Refused(MissingClaims)
  {
    NoExpNeverExpires(p, now);
  }

  /** `payload[nameidentifier] || payload.ownerId`: the owner id sent with a
      new property. */
  function OwnerIdOf(p: Payload): (r: string)
    ensures Truthy(Claim(p, NameIdentifier)) ==> r == Claim(p, NameIdentifier)
    ensures !Truthy(Claim(p, NameIdentifier)) ==> r == Claim(p, "ownerId")
    ensures Truthy(r) <==> HasOwnerClaim(p)
  {
    Or(Claim(p, NameIdentifier), Claim(p, "ownerId"))
  }

  /** A session that passed the check yields a truthy owner id, so a payload
      accepted on mount always has an owner to send. */
  lemma PassedSessionHasOwner(token: string, decoded: Decoded, now: int)
    requires CheckSession(token, decoded, now) == Pass
    ensures decoded.Decodes? && Truthy(OwnerIdOf(decoded.payload))
  {
  }

  /** The body of the POST to /api/property. `rentAmount` is what
      `parseFloat` read from the rent text; `ownerID` is the owner claim's
      text (its `parseInt` is not modelled). */
  datatype PropertyRequest = PropertyRequest(
    propertyName: string,
    address: string,
    state: string,
    country: string,
    rentAmount: Option<real>,
    availabilityStatus: bool,
    amenities: string,
    ownerID: string,
    imagePath: string)

  /** The add-property component's state. `tokenRemoved` records that the
      stored `ownerToken` was removed. */
  class AddPropertyForm {
    var formData: Draft
    var errors: map<Field, string>
    var authStatus: AuthStatus
    var imagePreview: Option<string>
    var tokenRemoved: bool

    /** Every recorded error carries a message, so `errors[name]` is truthy
        exactly for the recorded fields. */
    ghost predicate Valid()
      reads this
    {
      forall f :: f in errors ==> Truthy(errors[f])
    }

    constructor ()
      ensures Valid()
      ensures formData == EmptyDraft && errors == map[] && authStatus == Checking
      ensures imagePreview == None && !tokenRemoved
    {
      formData := EmptyDraft;
      errors := map[];
      authStatus := Checking;
      imagePreview := None;
      tokenRemoved := false;
    }

    /** `verifySession`: a missing token fails without decoding; every other
        refusal also removes the stored token. */
    method VerifySession(token: string, decoded: Decoded, now: int)
      requires Valid()
      modifies this
      ensures Valid()
      ensures authStatus == (if CheckSession(token, decoded, now) == Pass then Authenticated else Failed)
      ensures tokenRemoved == (old(tokenRemoved) || (CheckSession(token, decoded, now).Refused? && Truthy(token)))
      ensures !Truthy(token) ==> authStatus == Failed && tokenRemoved == old(tokenRemoved)
      ensures formData == old(formData) && errors == old(errors) && imagePreview == old(imagePreview)
    {
      if !Truthy(token) {
        authStatus := Failed;
        return;
      }
      var check := CheckSession(token, decoded, now);
      if check == Pass {
        authStatus := Authenticated;
      } else {
        tokenRemoved := true;
        authStatus := Failed;
      }
    }

    /** `handleChange`: only the named field changes, only its error is
        cleared, and the image preview follows the image path, becoming
        None when the path is cleared. */
    method HandleChange(f: Field, value: string, checked: bool)
      requires Valid()
      modifies this
      ensures Valid()
      ensures formData == Set(old(formData), f, value, checked)
      ensures errors == old(errors) - {f}
      ensures imagePreview == if f != ImagePath then old(imagePreview)
                              else if Truthy(value) then Some(value) else None
      ensures authStatus == old(authStatus) && tokenRemoved == old(tokenRemoved)
    {
      formData := Set(formData, f, value, checked);
      if f in errors && Truthy(errors[f]) {
        errors := errors - {f};
      }
      if f == ImagePath && Truthy(value) {
        imagePreview := Some(value);
      } else if f == ImagePath && !Truthy(value) {
        imagePreview := None;
      }
    }

    /** `handleSubmit`: `errors` becomes exactly the set of errors for the
        current draft; any error blocks the request. Otherwise the token is
        read again, and a token that is missing or does not decode ends the
        submission with no request; else the draft is posted with the owner
        id from the payload. When the POST answers 401, the stored token is
        removed. */
    method HandleSubmit(rent: Option<real>, token: string, decoded: Decoded, reply: Outcome<()>)
      returns (request: Option<PropertyRequest>)
      requires Valid()
      modifies this
      ensures Valid()
      ensures forall f :: f in errors <==> Invalid(formData, rent, f)
      ensures forall f :: f in errors ==> errors[f] == Message(AddWording, f)
      ensures request.Some? <==> errors == map[] && Truthy(token) && decoded.Decodes?
      ensures request.Some? ==> request.value == PropertyRequest(
                formData.propertyName, formData.address, formData.state, formData.country,
                rent, formData.availabilityStatus, formData.amenities,
                OwnerIdOf(decoded.payload), formData.imagePath)
      ensures tokenRemoved == (old(tokenRemoved) || (request.Some? && reply.NotOk? && reply.status == 401))
      ensures formData == old(formData) && authStatus == old(authStatus) && imagePreview == old(imagePreview)
    {
      var newErrors := CollectErrors(formData, rent, AddWording);
      errors := newErrors;
      if |newErrors| > 0 {
        return None;
      }
      if !Truthy(token) || decoded.DecodeError? {
        return None;
      }
      var ownerId := OwnerIdOf(decoded.payload);
      request := Some(PropertyRequest(
        formData.propertyName, formData.address, formData.state, formData.country,
        rent, formData.availabilityStatus, formData.amenities, ownerId, formData.imagePath));
      if reply.NotOk? && reply.status == 401 {
        tokenRemoved := true;
      }
    }
  }
}
