/** The records the dashboard exchanges with its backend and keeps in its state. */
module Entities {
  import opened Outcomes
  import opened Reactions

  type UrgentId = string

  /** A position in decimal degrees; no arithmetic is done on it here. */
  datatype Coords = Coords(lat: real, lng: real)

  /** A listing as the backend returns it. `kind` is the JSON field `type`;
      `status` is compared against the text "active" when rendered. */
  datatype Listing = Listing(
    id: ListingId, title: string, description: string, kind: string,
    isFree: bool, isTrade: bool, category: string, status: string,
    lat: real, lng: real)

  datatype UrgentNeed = UrgentNeed(
    id: UrgentId, title: string, description: string, radiusKm: real,
    lat: real, lng: real)

  /** The "Share something" form. */
  datatype ListingForm = ListingForm(
    title: string, description: string, kind: string,
    isFree: bool, isTrade: bool, category: string)

  /** The "Urgent need" form. */
  datatype UrgentForm = UrgentForm(title: string, description: string, radiusKm: real)

  const InitialListingForm: ListingForm := ListingForm("", "", "offer", true, false, "")
  const InitialUrgentForm: UrgentForm := UrgentForm("", "", 2.0)

  /** `{ ...fields, lat, lng }`: a form sent together with the creator's position. */
  datatype Located<F> = Located(fields: F, lat: real, lng: real)

  /** The radius, in kilometres, of both range queries of a refresh. */
  const NearbyRadiusKm: real := 3.0

  /** Every backend call the dashboard issues, one constructor per endpoint. */
  datatype Request =
    | GetListings(lat: real, lng: real, radiusKm: real)             // GET /listings
    | GetUrgentNearby(lat: real, lng: real, radiusKm: real)         // GET /urgent/nearby
    | GetReactions(listingId: ListingId)                            // GET /reactions/listings/{id}/reactions
    | PostListing(listing: Located<ListingForm>)                    // POST /listings
    | PostUrgent(need: Located<UrgentForm>)                         // POST /urgent
    | PostReaction(reactedId: ListingId, reactionType: string)      // POST /reactions/listings/{id}/reactions
    | PatchListing(patchedId: ListingId, newStatus: string)         // PATCH /listings/{id}
    | PostChatbotQuery(query: string, queryLat: real, queryLng: real) // POST /chatbot/query
    | GetMatching(urgentId: UrgentId)                               // GET /urgent/{id}/my-matching-listings
    | PostRespond(respondTo: UrgentId, withListing: ListingId)      // POST /urgent/{id}/respond-with-listing

  datatype Suggestion = Suggestion(title: string, description: string, distanceKm: Option<real>)
  datatype ExternalLink = ExternalLink(platform: string, url: string, icon: string)

  /** The chatbot's structured answer; both lists may be absent. */
  datatype ChatbotAnswer = ChatbotAnswer(
    response: string, suggestions: Option<seq<Suggestion>>, externalLinks: Option<seq<ExternalLink>>)
}
