/** The property draft edited by the add and update forms, the generic
    `handleChange` write (`{...prev, [name]: type === 'checkbox' ? checked
    : value}`), and the five submit-time validation rules both forms apply. */
module PropertyForm {
  import opened Js

  /** The `authStatus` state of both forms. */
  datatype AuthStatus = Checking | Authenticated | Failed

  datatype Field = PropertyName | Address | State | Country | RentAmount
                 | AvailabilityStatus | Amenities | ImagePath

  /** The form state. Every input holds text except the availability
      checkbox; `rentAmount` is the text of the number input. */
  datatype Draft = Draft(
    propertyName: string,
    address: string,
    state: string,
    country: string,
    rentAmount: string,
    availabilityStatus: bool,
    amenities: string,
    imagePath: string)

  /** The initial form: every text empty, available for rent. */
  const EmptyDraft := Draft("", "", "", "", "", true, "", "")

  datatype FieldValue = Text(text: string) | Flag(flag: bool)

  /** `formData[name]`. */
  function Get(d: Draft, f: Field): FieldValue {
    match f
    case PropertyName => Text(d.propertyName)
    case Address => Text(d.address)
    case State => Text(d.state)
    case Country => Text(d.country)
    case RentAmount => Text(d.rentAmount)
    case AvailabilityStatus => Flag(d.availabilityStatus)
    case Amenities => Text(d.amenities)
    case ImagePath => Text(d.imagePath)
  }

  /** The text of a text input ("" for the checkbox). */
  function TextOf(d: Draft, f: Field): string {
    match Get(d, f)
    case Text(t) => t
    case Flag(_) => ""
  }

  /** What a change event writes: the checkbox's `checked` for the one
      checkbox input, the input's `value` for every other. */
  function EventValue(f: Field, value: string, checked: bool): FieldValue {
    if f == AvailabilityStatus then Flag(checked) else Text(value)
  }

  /** `{...prev, [name]: type === 'checkbox' ? checked : value}`: the named
      field takes the event's value and no other field changes. */
  function Set(d: Draft, f: Field, value: string, checked: bool): (r: Draft)
    ensures Get(r, f) == EventValue(f, value, checked)
    ensures forall g :: g != f ==> Get(r, g) == Get(d, g)
  {
    match f
    case PropertyName => d.(propertyName := value)
    case Address => d.(address := value)
    case State => d.(state := value)
    case Country => d.(country := value)
    case RentAmount => d.(rentAmount := value)
    case AvailabilityStatus => d.(availabilityStatus := checked)
    case Amenities => d.(amenities := value)
    case ImagePath => d.(imagePath := value)
  }

  /** Two drafts that agree on every field are equal, so the two ensures of
      `Set` determine its result completely. */
  lemma DraftExtensional(d1: Draft, d2: Draft)
    requires forall f :: Get(d1, f) == Get(d2, f)
    ensures d1 == d2
  {
    assert Get(d1, PropertyName) == Get(d2, PropertyName);
    assert Get(d1, Address) == Get(d2, Address);
    assert Get(d1, State) == Get(d2, State);
    assert Get(d1, Country) == Get(d2, Country);
    assert Get(d1, RentAmount) == Get(d2, RentAmount);
    assert Get(d1, AvailabilityStatus) == Get(d2, AvailabilityStatus);
    assert Get(d1, Amenities) == Get(d2, Amenities);
    assert Get(d1, ImagePath) == Get(d2, ImagePath);
  }

  /** The fields the submit handler checks. */
  predicate Checked(f: Field) {
    f.PropertyName? || f.Address? || f.Country? || f.State? || f.RentAmount?
  }

  /** `!formData.rentAmount || parseFloat(formData.rentAmount) <= 0`, with
      `rent` the value `parseFloat` reads from the text (None for NaN, and
      `NaN <= 0` is false). */
  predicate RentInvalid(d: Draft, rent: Option<real>) {
    !Truthy(d.rentAmount) || (rent.Some? && rent.value <= 0.0)
  }

  /** Whether the submit handler records an error for field `f`: one of the
      four text fields is blank after trimming, or the rent is missing or not
      positive. No other field is checked. */
  predicate Invalid(d: Draft, rent: Option<real>, f: Field) {
    match f
    case PropertyName => Blank(d.propertyName)
    case Address => Blank(d.address)
    case Country => Blank(d.country)
    case State => Blank(d.state)
    case RentAmount => RentInvalid(d, rent)
    case _ => false
  }

  /** The two wordings: the add form's and the update form's. */
  datatype Wording = AddWording | UpdateWording

  function Message(w: Wording, f: Field): string {
    match w
    case AddWording =>
      (match f
       case PropertyName => "Property name is required"
       case Address => "Address is required"
       case Country => "Country is required"
       case State => "State is required"
       case RentAmount => "Must be a positive number"
       case _ => "")
    case UpdateWording =>
      if f == RentAmount then "Must be positive"
      else if Checked(f) then "Required"
      else ""
  }

  /** Order in which the submit handler checks the fields (6 for the
      fields it does not check). */
  function Rank(f: Field): (r: nat)
    ensures r <= 5 <==> Checked(f)
  {
    match f
    case PropertyName => 1
    case Address => 2
    case Country => 3
    case State => 4
    case RentAmount => 5
    case _ => 6
  }

  /** `m` holds the errors of exactly the invalid fields among the first
      `k` checked, each with its message. */
  ghost predicate ErrorsUpTo(m: map<Field, string>, d: Draft, rent: Option<real>, w: Wording, k: nat) {
    forall f :: (f in m <==> Rank(f) <= k && Invalid(d, rent, f)) && (f in m ==> m[f] == Message(w, f))
  }

  /** One conditional assignment of the submit handler: checking the
      `k`-th field extends the errors of the first `k - 1` to the first `k`. */
  lemma CheckStep(m: map<Field, string>, d: Draft, rent: Option<real>, w: Wording, f: Field)
    requires Checked(f) && ErrorsUpTo(m, d, rent, w, Rank(f) - 1)
    ensures ErrorsUpTo(if Invalid(d, rent, f) then m[f := Message(w, f)] else m, d, rent, w, Rank(f))
  {
  }

  /** Once all five checked fields are done, the errors are exactly the
      invalid fields, each with its non-empty message. */
  lemma ErrorsComplete(m: map<Field, string>, d: Draft, rent: Option<real>, w: Wording)
    requires ErrorsUpTo(m, d, rent, w, 5)
    ensures forall f :: f in m <==> Invalid(d, rent, f)
    ensures forall f :: f in m ==> m[f] == Message(w, f) && Truthy(m[f])
  {
    forall f
      ensures f in m <==> Invalid(d, rent, f)
      ensures f in m ==> m[f] == Message(w, f) && Truthy(m[f])
    {
      if !Checked(f) {
        assert !Invalid(d, rent, f);
      }
    }
  }

  /** The submit handler's `newErrors`, built by one conditional assignment
      per checked field: it has an entry exactly for the invalid fields,
      each holding that field's (non-empty) message in the form's wording. */
  method CollectErrors(d: Draft, rent: Option<real>, w: Wording) returns (newErrors: map<Field, string>)
    ensures forall f :: f in newErrors <==> Invalid(d, rent, f)
    ensures forall f :: f in newErrors ==> newErrors[f] == Message(w, f) && Truthy(newErrors[f])
  {
    newErrors := map[];
    CheckStep(newErrors, d, rent, w, PropertyName);
    if Invalid(d, rent, PropertyName) { newErrors := newErrors[PropertyName := Message(w, PropertyName)]; }
    CheckStep(newErrors, d, rent, w, Address);
    if Invalid(d, rent, Address) { newErrors := newErrors[Address := Message(w, Address)]; }
    CheckStep(newErrors, d, rent, w, Country);
    if Invalid(d, rent, Country) { newErrors := newErrors[Country := Message(w, Country)]; }
    CheckStep(newErrors, d, rent, w, State);
    if Invalid(d, rent, State) { newErrors := newErrors[State := Message(w, State)]; }
    CheckStep(newErrors, d, rent, w, RentAmount);
    if Invalid(d, rent, RentAmount) { newErrors := newErrors[RentAmount := Message(w, RentAmount)]; }
    ErrorsComplete(newErrors, d, rent, w);
  }

  /** Only the five checked fields matter: drafts that agree on them (and
      on the parsed rent) are judged alike, whatever their amenities, image
      or availability. */
  lemma OnlyCheckedFieldsMatter(d1: Draft, d2: Draft, rent: Option<real>, f: Field)
    requires forall g :: Checked(g) ==> Get(d1, g) == Get(d2, g)
    ensures Invalid(d1, rent, f) == Invalid(d2, rent, f)
  {
    assert Get(d1, RentAmount) == Get(d2, RentAmount);
    if Checked(f) {
      assert Get(d1, f) == Get(d2, f);
    }
  }

  /** The text fields are judged exactly by `!formData[name].trim()`: a
      field made only of white space fails, just as an empty one does. */
  lemma TextFieldJudgement(d: Draft, rent: Option<real>, f: Field)
    requires Checked(f) && f != RentAmount
    ensures Invalid(d, rent, f) <==> Trim(TextOf(d, f)) == ""
  {
    TrimEmptyIff(TextOf(d, f));
  }

  /** The untouched form fails on all five checked fields and on no other. */
  lemma EmptyDraftFailsEverywhere(rent: Option<real>, f: Field)
    ensures Invalid(EmptyDraft, rent, f) <==> Checked(f)
  {
  }

  /** A rent accepted by the check: the text is present, and `parseFloat`
      read either a positive number or NaN (which the check lets through). */
  lemma RentAccepted(d: Draft, rent: Option<real>)
    ensures !Invalid(d, rent, RentAmount) <==> Truthy(d.rentAmount) && (rent == None || rent.value > 0.0)
  {
  }
}
