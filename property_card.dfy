/** The shared property card (src/components/shared/PropertyCard.js): how
    the image address is resolved, and which lines and buttons appear. */
module PropertyCard {
  import opened Js
  import opened Api

  const DefaultImage := "default_image_url"
  const ServerRoot := "http://localhost:5162/"

  /** `imagePath ? (imagePath.startsWith('http') ? imagePath : root + imagePath)
      : 'default_image_url'`. */
  function ImageSrc(imagePath: Option<string>): (r: string)
    ensures !TruthyOpt(imagePath) ==> r == DefaultImage
    ensures TruthyOpt(imagePath) && StartsWith(imagePath.value, "http") ==> r == imagePath.value
    ensures TruthyOpt(imagePath) && !StartsWith(imagePath.value, "http") ==> r == ServerRoot + imagePath.value
  {
    if !TruthyOpt(imagePath) then DefaultImage
    else if StartsWith(imagePath.value, "http") then imagePath.value
    else ServerRoot + imagePath.value
  }

  /** A stored path is either kept or resolved against the server, so the
      card's image address is the default or starts with "http"; resolving
      an already resolved address keeps it. */
  lemma ImageSrcResolves(imagePath: Option<string>)
    ensures ImageSrc(imagePath) == DefaultImage || StartsWith(ImageSrc(imagePath), "http")
    ensures TruthyOpt(imagePath) ==> ImageSrc(Some(ImageSrc(imagePath))) == ImageSrc(imagePath)
  {
    if TruthyOpt(imagePath) && !StartsWith(imagePath.value, "http") {
      assert StartsWith(ServerRoot, "http");
      StartsWithAppend("http", ServerRoot, imagePath.value);
    }
  }

  /** A relative path is resolved to a suffix of the server root, so the
      path survives in the address. */
  lemma RelativePathKept(path: string)
    requires Truthy(path) && !StartsWith(path, "http")
    ensures ImageSrc(Some(path))[|ServerRoot|..] == path
  {
  }

  /** What one card shows: the owner and property id lines, and the Apply
      button with the id it passes (None when there is no button). */
  datatype Card = Card(
    image: string,
    ownerLine: Option<Option<string>>,
    idLine: Option<Option<string>>,
    applyWith: Option<Option<string>>)

  /** The card: the id lines only in the tenant view, the button only when
      asked for, and the button passes `PropertyID`, a different key from
      the `propertyID` the id line shows. */
  function CardOf(p: Listing, showApplyButton: bool, isTenantView: bool): (r: Card)
    ensures r.image == ImageSrc(p.imagePath)
    ensures r.ownerLine.Some? <==> isTenantView
    ensures r.idLine.Some? <==> isTenantView
    ensures isTenantView ==> r.ownerLine.value == p.ownerID && r.idLine.value == p.propertyID
    ensures r.applyWith.Some? <==> showApplyButton
    ensures showApplyButton ==> r.applyWith.value == p.PropertyID
  {
    Card(ImageSrc(p.imagePath),
         if isTenantView then Some(p.ownerID) else None,
         if isTenantView then Some(p.propertyID) else None,
         if showApplyButton then Some(p.PropertyID) else None)
  }

  /** For a listing that has only the `propertyID` key, the Apply button
      passes undefined even when the card shows a property id. */
  lemma ApplyPassesUndefined(p: Listing, isTenantView: bool)
    requires p.PropertyID == None && p.propertyID.Some?
    ensures CardOf(p, true, isTenantView).applyWith == Some(None)
    ensures isTenantView ==> CardOf(p, true, isTenantView).idLine == Some(p.propertyID)
  {
  }
}
