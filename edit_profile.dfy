/** The owner's profile editor (src/components/OwnerDashboard/EditProfile.js):
    the form's initial values, the change handler, and the submit handler's
    sequence of checks before and after the PUT. */
module EditProfile {
  import opened Js
  import opened Claims
  import opened Api

  const NoToken := "JWT token not found"
  const NoOwnerId := "Owner ID not found in token"
  const UpdateFailed := "Failed to update profile"

  /** The profile handed over by the profile page; None for a missing key. */
  datatype SourceProfile = SourceProfile(name: Option<string>, phone: Option<string>)

  /** The form's state. */
  datatype Profile = Profile(name: string, phoneNumber: string, password: string)

  datatype ProfileField = Name | PhoneNumber | Password

  /** `value || ''`. */
  function TextOrEmpty(v: Option<string>): (r: string)
    ensures TruthyOpt(v) ==> r == v.value
    ensures !TruthyOpt(v) ==> r == ""
  {
    if v.Some? then v.value else ""
  }

  /** The body of the PUT: `{ ownerId, ...profile }`. */
  datatype OwnerUpdate = OwnerUpdate(ownerId: string, name: string, phoneNumber: string, password: string)

  class EditProfileForm {
    var profile: Profile
    /** The shown error; "" for `null`. */
    var error: string

    /** The name from the profile's `name`, the phone number from its
        `phone`, each '' when missing, and an empty password. */
    constructor (source: SourceProfile)
      ensures profile == Profile(TextOrEmpty(source.name), TextOrEmpty(source.phone), "")
      ensures error == ""
    {
      profile := Profile(TextOrEmpty(source.name), TextOrEmpty(source.phone), "");
      error := "";
    }

    /** `setProfile({...profile, [name]: value})`: only the named field
        changes. */
    method HandleChange(f: ProfileField, value: string)
      modifies this
      ensures profile == match f
                         case Name => old(profile).(name := value)
                         case PhoneNumber => old(profile).(phoneNumber := value)
                         case Password => old(profile).(password := value)
      ensures error == old(error)
    {
      match f
      case Name => profile := profile.(name := value);
      case PhoneNumber => profile := profile.(phoneNumber := value);
      case Password => profile := profile.(password := value);
    }

    /** `handleSubmit`. A missing token, a token that does not decode and a
        payload without a truthy `ownerId` each stop before the request with
        their error. Otherwise the request carries the owner id and every
        profile field; a 200 counts as success and leaves the error as it
        was, any other 2xx is reported as a failed update, and a request
        that throws shows the client error's message. */
    method HandleSubmit(token: string, decoded: Decoded, reply: Outcome<()>)
      returns (request: Option<OwnerUpdate>)
      modifies this
      ensures profile == old(profile)
      ensures request.Some? <==> Truthy(token) && decoded.Decodes? && Truthy(Claim(decoded.payload, "ownerId"))
      ensures request.Some? ==> request.value == OwnerUpdate(Claim(decoded.payload, "ownerId"),
                                  profile.name, profile.phoneNumber, profile.password)
      ensures !Truthy(token) ==> error == NoToken
      ensures Truthy(token) && decoded.DecodeError? ==> error == decoded.message
      ensures Truthy(token) && decoded.Decodes? && !Truthy(Claim(decoded.payload, "ownerId")) ==> error == NoOwnerId
      ensures request.Some? ==> error == match reply
                                         case Ok(status, _) => if status == 200 then old(error) else UpdateFailed
                                         case NotOk(_, _, m) => m
                                         case NoResponse(m) => m
    {
      if !Truthy(token) {
        error := NoToken;
        return None;
      }
      if decoded.DecodeError? {
        error := decoded.message;
        return None;
      }
      var ownerId := Claim(decoded.payload, "ownerId");
      if !Truthy(ownerId) {
        error := NoOwnerId;
        return None;
      }
      request := Some(OwnerUpdate(ownerId, profile.name, profile.phoneNumber, profile.password));
      match reply
      case Ok(status, _) =>
        if status != 200 {
          error := UpdateFailed;
        }
      case NotOk(_, _, m) =>
        error := m;
      case NoResponse(m) =>
        error := m;
    }
  }

  /** Only an exact 200 is a success: a 204 No Content from the same
      endpoint is reported as a failed update. */
  method NoContentIsFailure(token: string, p: Payload) returns (shown: string)
    requires Truthy(token) && Truthy(Claim(p, "ownerId"))
    ensures shown == UpdateFailed
  {
    var form := new EditProfileForm(SourceProfile(None, None));
    var _ := form.HandleSubmit(token, Decodes(p), Ok(204, ()));
    shown := form.error;
  }
}
