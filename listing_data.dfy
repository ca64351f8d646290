/** The listing as the editing panels, the booking form and the pricing engine
    read it. */
module ListingData {
  import opened Support

  datatype Uuid = Uuid(uuid: string)

  /** Listing states; only the draft state matters to the code modelled here. */
  datatype ListingState = Draft | PendingApproval | Published | Closed

  /** The listing's extended data written by the general panel. `types` is a
      single select key; `subjects` and `levels` are checkbox-group arrays;
      `numberOfHours` is the session length in hours. */
  datatype PublicData = PublicData(
    subjects: Option<seq<string>>,
    levels: Option<seq<string>>,
    types: Option<string>,
    numberOfHours: Option<nat>)

  /** A listing. `price` is the unit price in minor units. */
  datatype Listing = Listing(
    id: Option<Uuid>,
    state: ListingState,
    title: string,
    description: string,
    price: int,
    publicData: Option<PublicData>)

  /** An image of the photos form: an upload carries the `imageId` the upload
      returned and a string id of its own; an image already saved on the
      listing has the saved UUID as its id and no `imageId`. */
  datatype ImageId = TempId(key: string) | SavedId(uuid: Uuid)

  datatype Image = Image(id: ImageId, imageId: Option<Uuid>)

  /** A listing counts as published when it has an id and is not a draft. */
  predicate IsPublished(listing: Listing) {
    listing.id.Some? && listing.state != Draft
  }

  /** The heading an editing panel shows: the listing's own title once the
      listing is published, the panel's new-listing heading before. */
  datatype PanelTitle = ListingTitle | NewListingTitle

  function PanelTitleOf(listing: Listing): (r: PanelTitle)
    ensures r == ListingTitle <==> listing.id.Some? && listing.state != Draft
  {
    if IsPublished(listing) then ListingTitle else NewListingTitle
  }

  /** JavaScript truthiness of an optional count: absent and 0 are falsy. */
  predicate Truthy(n: Option<nat>) {
    n.Some? && n.value != 0
  }
}
