/** The owner's list of their properties
    (src/components/OwnerDashboard/MyProperties.js): the load, the id each
    card uses for its key and its edit and delete links, and the
    "Not specified" fallbacks. */
module MyProperties {
  import opened Js
  import opened Api
  import opened Screens

  const NotSpecified := "Not specified"
  const EditPrefix := "/owner/edit-property/"
  const DeletePrefix := "/owner/delete-property/"

  /** The state the load leaves: the list and the error ("" for none). */
  datatype Loaded = Loaded(properties: seq<Listing>, error: string)

  /** The load on mount: a response yields its list (`$values`, else the
      body if it is an array, else []) and no error; a failed request
      yields [] and an error. */
  function Load(reply: Outcome<Body<Listing>>): (r: Loaded)
    ensures reply.Ok? ==> r == Loaded(PropertiesUnwrap(reply.body), "")
    ensures !reply.Ok? ==> r == Loaded([], "Failed to load properties.")
  {
    if reply.Ok? then Loaded(PropertiesUnwrap(reply.body), "")
    else Loaded([], "Failed to load properties.")
  }

  /** `property.propertyID || property.id`: the card's key, and the id its
      Edit and Delete buttons navigate with. */
  function ItemId(p: Listing): (r: Option<string>)
    ensures TruthyOpt(p.propertyID) ==> r == p.propertyID
    ensures !TruthyOpt(p.propertyID) ==> r == p.id
  {
    OrOpt(p.propertyID, p.id)
  }

  function EditPath(p: Listing): string {
    EditPrefix + Template(ItemId(p))
  }

  function DeletePath(p: Listing): string {
    DeletePrefix + Template(ItemId(p))
  }

  /** The Edit and Delete links are the two prefixes followed by the same
      id, so they never coincide, and two cards share an edit link exactly
      when they share a delete link. */
  lemma PathsShareTheId(p: Listing, q: Listing)
    ensures EditPath(p)[|EditPrefix|..] == DeletePath(p)[|DeletePrefix|..] == Template(ItemId(p))
    ensures EditPath(p) != DeletePath(p)
    ensures EditPath(p) == EditPath(q) <==> DeletePath(p) == DeletePath(q)
  {
    assert EditPath(p)[7] == EditPrefix[7] == 'e' && DeletePath(p)[7] == DeletePrefix[7] == 'd';
    if EditPath(p) == EditPath(q) {
      assert EditPath(p)[|EditPrefix|..] == EditPath(q)[|EditPrefix|..];
    }
    if DeletePath(p) == DeletePath(q) {
      assert DeletePath(p)[|DeletePrefix|..] == DeletePath(q)[|DeletePrefix|..];
    }
  }

  /** `value || 'Not specified'` for the address, state and country. */
  function TextOrNotSpecified(v: Option<string>): (r: string)
    ensures r == NotSpecified <==> !TruthyOpt(v) || v.value == NotSpecified
    ensures TruthyOpt(v) ==> r == v.value
  {
    if TruthyOpt(v) then v.value else NotSpecified
  }

  datatype Rent = Amount(amount: real) | RentNotSpecified

  /** `property.rentAmount || 'Not specified'`: a missing or zero rent is
      not specified. */
  function RentShown(rent: Option<real>): (r: Rent)
    ensures r.RentNotSpecified? <==> rent == None || rent == Some(0.0)
    ensures r.Amount? ==> r.amount == rent.value
  {
    if rent.Some? && rent.value != 0.0 then Amount(rent.value) else RentNotSpecified
  }

  /** What one card shows and where its buttons lead. */
  datatype Card = Card(
    key: Option<string>,
    address: string,
    state: string,
    country: string,
    rent: Rent,
    editPath: string,
    deletePath: string)

  function CardOf(p: Listing): (r: Card)
    ensures r.editPath == EditPrefix + Template(r.key) && r.deletePath == DeletePrefix + Template(r.key)
    ensures r.key == ItemId(p)
  {
    Card(ItemId(p), TextOrNotSpecified(p.address), TextOrNotSpecified(p.state),
         TextOrNotSpecified(p.country), RentShown(p.rentAmount), EditPath(p), DeletePath(p))
  }

  /** What the page renders: loading, then the error, then the empty
      message, then the grid. A failed load never shows a grid. */
  lemma FailedLoadShowsError(reply: Outcome<Body<Listing>>)
    requires !reply.Ok?
    ensures ListScreen(false, Load(reply).error, Load(reply).properties) == ErrorMessage("Failed to load properties.")
  {
  }
}
